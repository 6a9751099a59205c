/** The end of a conversation that a forked child starts from: cut to a token budget, never between a call and
  its results. */
module Fork {
  import opened Wrappers

  datatype Role = System | User | Assistant | Tool

  datatype Call = Call(id: string, name: string, arguments: string)

  datatype Message = Message(role: Role, content: Option<string>, calls: seq<Call>, callId: Option<string>,
                             reasoning: Option<string>, native: Option<string>)

  // ---------------------------------------------------------------- cost

  function Utf8(c: char): nat {
    if c as int < 0x80 then 1 else if c as int < 0x800 then 2 else if c as int < 0x1_0000 then 3 else 4
  }

  /** Length in bytes. */
  function Bytes(s: string): nat {
    if s == "" then 0 else Bytes(s[..|s| - 1]) + Utf8(s[|s| - 1])
  }

  function Text(s: Option<string>): string {
    if s.Some? then s.value else ""
  }

  function CallBytes(calls: seq<Call>): nat {
    if calls == [] then 0
    else
      var last := calls[|calls| - 1];
      CallBytes(calls[..|calls| - 1]) + Bytes(last.arguments) + Bytes(last.name)
  }

  /** About four bytes a token. */
  function EstTokens(m: Message): (n: nat)
    ensures n >= 4
  {
    (Bytes(Text(m.content)) + Bytes(Text(m.reasoning)) + CallBytes(m.calls)) / 4 + 4
  }

  function Decimal(n: nat): string {
    (if n < 10 then "" else Decimal(n / 10)) + [('0' as int + n % 10) as char]
  }

  function Note(max: nat, n: nat): string {
    "\n\U{2026}[cut at " + Decimal(max) + " of " + Decimal(n)
    + " chars for the fork; the rest is in the parent's transcript]"
  }

  function Shrink(m: Message, max: nat): (r: Message)
    ensures r.role == m.role && r.calls == m.calls && r.callId == m.callId
    ensures r.reasoning == r.native == None
    ensures r.content.Some? <==> m.content.Some?
    ensures |Text(m.content)| <= max ==> r.content == m.content
    ensures |Text(m.content)| > max ==> Text(m.content)[..max] <= Text(r.content)
  {
    var bare := m.(reasoning := None, native := None);
    match m.content
    case None => bare
    case Some(text) =>
      if |text| <= max then bare else bare.(content := Some(text[..max] + Note(max, |text|)))
  }

  /** The number that digits read as. */
  function Number(digits: string): nat
    requires forall i :: 0 <= i < |digits| ==> '0' <= digits[i] <= '9'
  {
    if digits == "" then 0 else Number(digits[..|digits| - 1]) * 10 + (digits[|digits| - 1] as int - '0' as int)
  }

  /** The note says the two numbers: their digits read as themselves. */
  lemma {:induction false} DecimalReads(n: nat)
    ensures Decimal(n) != "" && (forall i :: 0 <= i < |Decimal(n)| ==> '0' <= Decimal(n)[i] <= '9') && Number(Decimal(n)) == n
  {
    var last := ('0' as int + n % 10) as char;
    assert last as int - '0' as int == n % 10;
    if n < 10 {
      assert Decimal(n) == [last] && [last][..0] == "";
    } else {
      DecimalReads(n / 10);
      assert Decimal(n)[..|Decimal(n)| - 1] == Decimal(n / 10);
    }
  }

  /** Long text is its beginning and the note; nothing longer than `max` stays whole. */
  lemma ShrunkIs(m: Message, max: nat)
    ensures var text := Text(m.content);
      Text(Shrink(m, max).content) == if |text| <= max then text else text[..max] + Note(max, |text|)
  {
  }

  /** The note says what was left of how much. */
  lemma NoteSays(max: nat, n: nat) returns (a: string, b: string, c: string)
    ensures Note(max, n) == a + Decimal(max) + b + Decimal(n) + c
  {
    a, b, c := "\n\U{2026}[cut at ", " of ", " chars for the fork; the rest is in the parent's transcript]";
  }

  lemma {:induction false} AsciiBytes(s: string)
    requires forall i :: 0 <= i < |s| ==> s[i] as int < 128
    ensures Bytes(s) == |s|
  {
    if s != "" {
      AsciiBytes(s[..|s| - 1]);
    }
  }

  /** A token is four bytes, and a message costs four more: its text, its reasoning, and the names and arguments of its
    calls, of which each adds up. */
  lemma TokensAre(m: Message, call: Call)
    requires forall i :: 0 <= i < |Text(m.content)| ==> Text(m.content)[i] as int < 128
    requires forall i :: 0 <= i < |Text(m.reasoning)| ==> Text(m.reasoning)[i] as int < 128
    requires forall i :: 0 <= i < |call.name| ==> call.name[i] as int < 128
    requires forall i :: 0 <= i < |call.arguments| ==> call.arguments[i] as int < 128
    ensures EstTokens(m.(calls := [])) == (|Text(m.content)| + |Text(m.reasoning)|) / 4 + 4
    ensures EstTokens(m.(calls := [call])) ==
      (|Text(m.content)| + |Text(m.reasoning)| + |call.name| + |call.arguments|) / 4 + 4
    ensures CallBytes(m.calls + [call]) == CallBytes(m.calls) + |call.name| + |call.arguments|
  {
    AsciiBytes(Text(m.content));
    AsciiBytes(Text(m.reasoning));
    AsciiBytes(call.name);
    AsciiBytes(call.arguments);
    assert (m.calls + [call])[..|m.calls|] == m.calls && [call][..0] == [];
  }

  /** The lengths of UTF-8. */
  lemma Utf8Lengths()
    ensures Bytes("a\U{E9}\U{2026}\U{1F600}") == 1 + 2 + 3 + 4
  {
    var s := "a\U{E9}\U{2026}\U{1F600}";
    assert s[..4] == s && s[..3][..2] == s[..2] && s[..2][..1] == s[..1] && s[..1][..0] == "" && s[..4][..3] == s[..3];
    assert Bytes(s[..1]) == 1;
    assert Bytes(s[..2]) == 3;
    assert Bytes(s[..3]) == 6;
  }

  function ShrinkAll(ms: seq<Message>, max: nat): (r: seq<Message>)
    ensures |r| == |ms| && forall i :: 0 <= i < |ms| ==> r[i] == Shrink(ms[i], max)
  {
    seq(|ms|, i requires 0 <= i < |ms| => Shrink(ms[i], max))
  }

  /** What each message costs once shrunk. */
  function Costs(ms: seq<Message>, budget: nat): (r: seq<nat>)
    ensures |r| == |ms| && forall i :: 0 <= i < |ms| ==> r[i] == EstTokens(Shrink(ms[i], budget))
  {
    seq(|ms|, i requires 0 <= i < |ms| => EstTokens(Shrink(ms[i], budget)))
  }

  function TotalFrom(costs: seq<nat>, k: nat): nat
    requires k <= |costs|
    decreases |costs| - k
  {
    if k == |costs| then 0 else costs[k] + TotalFrom(costs, k + 1)
  }

  // ---------------------------------------------------------------- the messages the copy is taken from

  function NonSystem(history: seq<Message>): (r: seq<Message>)
    ensures forall m :: m in r <==> m in history && m.role != System
  {
    if history == [] then []
    else
      var rest, last := NonSystem(history[..|history| - 1]), history[|history| - 1];
      if last.role != System then rest + [last] else rest
  }

  /** System prompts go, the rest keeps its order. */
  lemma {:induction false} NonSystemConcat(a: seq<Message>, b: seq<Message>)
    ensures NonSystem(a + b) == NonSystem(a) + NonSystem(b)
    decreases |b|
  {
    hide NonSystem;
    NonSystemNothing();
    if b == [] {
      assert a + b == a;
    } else {
      var init, last := b[..|b| - 1], b[|b| - 1];
      NonSystemConcat(a, init);
      NonSystemSnoc(init, last);
      NonSystemSnoc(a + init, last);
      assert b == init + [last] && a + b == a + init + [last];
    }
  }

  lemma NonSystemNothing()
    ensures NonSystem([]) == []
  {
  }

  lemma NonSystemSnoc(ms: seq<Message>, m: Message)
    ensures NonSystem(ms + [m]) == NonSystem(ms) + if m.role == System then [] else [m]
  {
    assert (ms + [m])[..|ms|] == ms;
  }

  lemma NonSystemOne(m: Message)
    ensures NonSystem([m]) == if m.role == System then [] else [m]
  {
    assert [m][..0] == [];
  }

  predicate Answered(ms: seq<Message>, at: nat, id: string) {
    exists i :: at < i < |ms| && ms[i].callId == Some(id)
  }

  predicate AllAnswered(ms: seq<Message>, at: nat)
    requires at < |ms|
  {
    forall c :: c in ms[at].calls ==> Answered(ms, at, c.id)
  }

  /** Where the last message with calls is; the length when there is none. */
  function LastCalls(ms: seq<Message>, upTo: nat): (at: nat)
    requires upTo <= |ms|
    ensures at < upTo ==> ms[at].calls != [] && forall i :: at < i < upTo ==> ms[i].calls == []
    ensures at >= upTo ==> at == |ms| && forall i :: 0 <= i < upTo ==> ms[i].calls == []
  {
    if upTo == 0 then |ms| else if ms[upTo - 1].calls != [] then upTo - 1 else LastCalls(ms, upTo - 1)
  }

  /** Without the turn in progress. */
  function Finished(ms: seq<Message>): seq<Message> {
    var at := LastCalls(ms, |ms|);
    if at < |ms| && !AllAnswered(ms, at) then ms[..at] else ms
  }

  /** The last message with calls goes, and all after it, exactly when one of its calls has no result after it. */
  lemma FinishedIs(ms: seq<Message>, at: nat)
    requires at < |ms| && ms[at].calls != [] && forall i :: at < i < |ms| ==> ms[i].calls == []
    ensures Finished(ms) ==
      if exists c :: c in ms[at].calls && forall i :: at < i < |ms| ==> ms[i].callId != Some(c.id) then ms[..at] else ms
  {
    assert LastCalls(ms, |ms|) == at;
    assert AllAnswered(ms, at) <==> forall c :: c in ms[at].calls ==> exists i :: at < i < |ms| && ms[i].callId == Some(c.id);
  }

  lemma NothingToFinish(ms: seq<Message>)
    requires forall i :: 0 <= i < |ms| ==> ms[i].calls == []
    ensures Finished(ms) == ms
  {
    var at := LastCalls(ms, |ms|);
  }

  // ---------------------------------------------------------------- the cut

  /** The earliest start from which the rest costs at most the budget. */
  function Widest(costs: seq<nat>, budget: nat, from: nat): (start: nat)
    requires from <= |costs| && TotalFrom(costs, from) <= budget
    ensures start <= from && TotalFrom(costs, start) <= budget
    ensures start > 0 ==> TotalFrom(costs, start - 1) > budget
  {
    if from == 0 || TotalFrom(costs, from - 1) > budget then from else Widest(costs, budget, from - 1)
  }

  /** Past the results at the front. */
  function PastResults(ms: seq<Message>, start: nat): (k: nat)
    requires start <= |ms|
    ensures start <= k <= |ms| && (k < |ms| ==> ms[k].role != Tool)
    ensures forall i :: start <= i < k ==> ms[i].role == Tool
    decreases |ms| - start
  {
    if start == |ms| || ms[start].role != Tool then start else PastResults(ms, start + 1)
  }

  function Opening(ms: seq<Message>, budget: nat): (k: nat)
    ensures k <= |ms|
  {
    PastResults(ms, Widest(Costs(ms, budget), budget, |ms|))
  }

  /** From `start` on the messages are shrunk. */
  ghost predicate ShrunkFrom(messages: seq<Message>, ms: seq<Message>, budget: nat, start: nat) {
    |messages| == |ms| && forall i :: start <= i < |ms| ==> messages[i] == Shrink(ms[i], budget)
  }

  ghost predicate SameUpTo(messages: seq<Message>, ms: seq<Message>, start: nat) {
    |messages| == |ms| && forall i :: 0 <= i < start && i < |ms| ==> messages[i] == ms[i]
  }

  method Tail(history: seq<Message>, budget: nat) returns (copy: seq<Message>, total: nat)
    ensures var ms := Finished(NonSystem(history));
      total == |ms| && copy == ShrinkAll(ms[Opening(ms, budget)..], budget)
  {
    hide NonSystem, AllAnswered;
    var messages := NonSystem(history);
    var at := LastCalls(messages, |messages|);
    if at < |messages| && !AllAnswered(messages, at) {
      messages := messages[..at];
    }
    assert messages == Finished(NonSystem(history));
    copy, total := CutTo(messages, budget);
  }

  /** The walk from the end. */
  method CutTo(ms: seq<Message>, budget: nat) returns (copy: seq<Message>, total: nat)
    ensures total == |ms| && copy == ShrinkAll(ms[Opening(ms, budget)..], budget)
  {
    hide TotalFrom, EstTokens, Widest, PastResults, Shrink, Opening, ShrunkFrom, SameUpTo;
    ghost var costs := Costs(ms, budget);
    var messages := ms;
    total := |messages|;
    var used: nat, start: nat := 0, |messages|;
    WalkStarts(ms, budget);
    while start > 0
      invariant start <= |ms| == |messages| && used == TotalFrom(costs, start) <= budget
      invariant Widest(costs, budget, start) == Widest(costs, budget, |ms|)
      invariant SameUpTo(messages, ms, start) && ShrunkFrom(messages, ms, budget, start)
    {
      WalkStep(costs, budget, start);
      WalkShrinks(messages, ms, budget, start);
      messages := messages[start - 1 := Shrink(messages[start - 1], budget)];
      var cost := EstTokens(messages[start - 1]);
      if used + cost > budget {
        break;
      }
      used := used + cost;
      start := start - 1;
    }
    WalkEnds(ms, budget, start);
    while start < |messages| && messages[start].role == Tool
      invariant start <= |ms| == |messages| && PastResults(ms, start) == Opening(ms, budget)
      invariant ShrunkFrom(messages, ms, budget, start)
    {
      SkipStep(messages, ms, budget, start);
      start := start + 1;
    }
    SkipEnds(messages, ms, budget, start);
    copy := messages[start..];
  }

  lemma WalkShrinks(messages: seq<Message>, ms: seq<Message>, budget: nat, start: nat)
    requires 0 < start <= |ms| && SameUpTo(messages, ms, start) && ShrunkFrom(messages, ms, budget, start)
    ensures messages[start - 1] == ms[start - 1]
    ensures var shrunk := messages[start - 1 := Shrink(messages[start - 1], budget)];
      && SameUpTo(shrunk, ms, start - 1) && ShrunkFrom(shrunk, ms, budget, start - 1)
      && ShrunkFrom(shrunk, ms, budget, start)
  {
    hide Shrink;
  }

  lemma WalkStarts(ms: seq<Message>, budget: nat)
    ensures TotalFrom(Costs(ms, budget), |ms|) == 0 && SameUpTo(ms, ms, |ms|) && ShrunkFrom(ms, ms, budget, |ms|)
  {
  }

  lemma WalkStep(costs: seq<nat>, budget: nat, start: nat)
    requires 0 < start <= |costs| && TotalFrom(costs, start) <= budget
    ensures TotalFrom(costs, start - 1) == TotalFrom(costs, start) + costs[start - 1]
    ensures TotalFrom(costs, start - 1) <= budget ==> Widest(costs, budget, start) == Widest(costs, budget, start - 1)
  {
  }

  lemma WalkEnds(ms: seq<Message>, budget: nat, start: nat)
    requires start <= |ms| && TotalFrom(Costs(ms, budget), start) <= budget
    requires TotalFrom(Costs(ms, budget), |ms|) <= budget
    requires Widest(Costs(ms, budget), budget, start) == Widest(Costs(ms, budget), budget, |ms|)
    requires start > 0 ==> TotalFrom(Costs(ms, budget), start - 1) > budget
    ensures PastResults(ms, start) == Opening(ms, budget)
  {
  }

  lemma SkipStep(messages: seq<Message>, ms: seq<Message>, budget: nat, start: nat)
    requires start < |ms| && ShrunkFrom(messages, ms, budget, start) && messages[start].role == Tool
    ensures PastResults(ms, start) == PastResults(ms, start + 1) && ShrunkFrom(messages, ms, budget, start + 1)
  {
  }

  lemma SkipEnds(messages: seq<Message>, ms: seq<Message>, budget: nat, start: nat)
    requires start <= |ms| && ShrunkFrom(messages, ms, budget, start)
    requires start < |ms| ==> messages[start].role != Tool
    ensures PastResults(ms, start) == start && messages[start..] == ShrinkAll(ms[start..], budget)
  {
    assert start < |ms| ==> messages[start] == Shrink(ms[start], budget);
    hide Shrink;
  }

  // ---------------------------------------------------------------- what the copy is

  lemma {:induction false} TotalGrows(costs: seq<nat>, j: nat, k: nat)
    requires j <= k <= |costs|
    ensures TotalFrom(costs, k) <= TotalFrom(costs, j)
    decreases k
  {
    if j < k {
      TotalGrows(costs, j, k - 1);
    }
  }

  function TotalTokens(ms: seq<Message>): nat {
    if ms == [] then 0 else EstTokens(ms[0]) + TotalTokens(ms[1..])
  }

  lemma {:induction false} CopyCosts(ms: seq<Message>, budget: nat, k: nat)
    requires k <= |ms|
    ensures TotalTokens(ShrinkAll(ms[k..], budget)) == TotalFrom(Costs(ms, budget), k)
    decreases |ms| - k
  {
    hide EstTokens, Shrink;
    if k < |ms| {
      CopyCosts(ms, budget, k + 1);
      assert ShrinkAll(ms[k..], budget)[1..] == ShrinkAll(ms[k + 1..], budget);
    }
  }

  /** The copy costs at most the budget and doesn't open with a result; a longer one either costs more than
    the budget or opens with a result. */
  lemma CopyFits(ms: seq<Message>, budget: nat, k: nat)
    requires k <= |ms|
    ensures var start := Opening(ms, budget);
      && TotalTokens(ShrinkAll(ms[start..], budget)) <= budget
      && (start < |ms| ==> ms[start].role != Tool)
      && (k < start ==> TotalTokens(ShrinkAll(ms[k..], budget)) > budget || ms[k].role == Tool)
  {
    hide EstTokens, Shrink, TotalTokens, ShrinkAll, Costs;
    var costs := Costs(ms, budget);
    WalkStarts(ms, budget);
    hide TotalFrom, Widest, PastResults;
    var widest, start := Widest(costs, budget, |ms|), Opening(ms, budget);
    CopyCosts(ms, budget, start);
    CopyCosts(ms, budget, k);
    TotalGrows(costs, widest, start);
    if k < widest {
      TotalGrows(costs, k, widest - 1);
    }
  }

  predicate Calls(m: Message, id: string) {
    exists c :: c in m.calls && c.id == id
  }

  predicate Results(ms: seq<Message>, j: nat, i: nat)
    requires j <= i <= |ms|
  {
    forall k :: j <= k < i ==> ms[k].role == Tool
  }

  /** A transcript as an agent writes it: calls only in its own messages, ids only on results; a result
    follows its call with nothing but results between; only the last calls may still wait. */
  ghost predicate Transcript(ms: seq<Message>) {
    && (forall i :: 0 <= i < |ms| ==> (ms[i].role == Tool <==> ms[i].callId.Some?) && (ms[i].calls != [] ==> ms[i].role == Assistant))
    && (forall i :: 0 <= i < |ms| && ms[i].role == Tool ==> HasCall(ms, i))
    && (forall j, c :: 0 <= j < |ms| && j != LastCalls(ms, |ms|) && c in ms[j].calls ==> HasResult(ms, j, c.id))
  }

  ghost predicate HasCall(ms: seq<Message>, i: nat)
    requires i < |ms|
  {
    exists j: nat :: j < i && ms[i].callId.Some? && Calls(ms[j], ms[i].callId.value) && Results(ms, j + 1, i)
  }

  ghost predicate HasResult(ms: seq<Message>, j: nat, id: string)
    requires j < |ms|
  {
    exists i: nat :: j < i < |ms| && ms[i].callId == Some(id) && Results(ms, j + 1, i + 1)
  }

  /** Dropping the turn in progress leaves every call answered. */
  lemma FinishedIsAnswered(ms: seq<Message>, j: nat, c: Call)
    requires Transcript(ms) && j < |Finished(ms)| && c in ms[j].calls
    ensures Finished(ms)[j] == ms[j] && Answered(Finished(ms), j, c.id)
  {
    var at := LastCalls(ms, |ms|);
    if j != at {
      assert HasResult(ms, j, c.id);
      var i: nat :| j < i < |ms| && ms[i].callId == Some(c.id) && Results(ms, j + 1, i + 1);
      assert j < at;
      assert ms[at].role == Assistant && i < at;
      assert Finished(ms)[i] == ms[i];
    }
  }

  lemma OpeningIsNoResult(ms: seq<Message>, budget: nat)
    ensures Opening(ms, budget) < |ms| ==> ms[Opening(ms, budget)].role != Tool
  {
    CopyFits(ms, budget, |ms|);
  }

  lemma ResultHasCall(ms: seq<Message>, s: nat, i: nat)
    requires Transcript(ms) && s <= i < |ms| && ms[s].role != Tool && ms[i].role == Tool
    ensures exists j: nat :: s <= j < i && ms[i].callId.Some? && Calls(ms[j], ms[i].callId.value)
  {
    hide LastCalls;
    assert HasCall(ms, i);
    var j: nat :| j < i && ms[i].callId.Some? && Calls(ms[j], ms[i].callId.value) && Results(ms, j + 1, i);
    assert s <= j;
  }

  lemma FinishedIsPrefix(ms: seq<Message>)
    ensures |Finished(ms)| <= |ms| && forall i :: 0 <= i < |Finished(ms)| ==> Finished(ms)[i] == ms[i]
  {
  }

  /** `copy` is `ms` from `s` on, as far as roles, calls and ids go. */
  ghost predicate Mirrors(copy: seq<Message>, ms: seq<Message>, s: nat) {
    s + |copy| <= |ms| &&
    forall i :: 0 <= i < |copy| ==>
      copy[i].role == ms[s + i].role && copy[i].calls == ms[s + i].calls && copy[i].callId == ms[s + i].callId
  }

  lemma CopyMirrors(ms: seq<Message>, s: nat, budget: nat)
    requires s <= |Finished(ms)|
    ensures Mirrors(ShrinkAll(Finished(ms)[s..], budget), ms, s)
  {
    FinishedIsPrefix(ms);
    hide Finished;
  }

  predicate HasCallBefore(copy: seq<Message>, p: nat)
    requires p < |copy|
  {
    exists q: nat :: q < p && copy[p].callId.Some? && Calls(copy[q], copy[p].callId.value)
  }

  lemma MirroredResult(copy: seq<Message>, ms: seq<Message>, s: nat, p: nat)
    requires Transcript(ms) && Mirrors(copy, ms, s) && p < |copy| && copy[p].role == Tool && copy[0].role != Tool
    ensures HasCallBefore(copy, p)
  {
    hide Transcript, Calls;
    ResultHasCall(ms, s, s + p);
    var j: nat :| s <= j < s + p && ms[s + p].callId.Some? && Calls(ms[j], ms[s + p].callId.value);
    assert Calls(copy[j - s], copy[p].callId.value) by {
      SameCalls(copy[j - s], ms[j], copy[p].callId.value);
    }
  }

  lemma SameCalls(a: Message, b: Message, id: string)
    requires a.calls == b.calls
    ensures Calls(a, id) == Calls(b, id)
  {
  }

  lemma MirroredAnswer(copy: seq<Message>, ms: seq<Message>, s: nat, p: nat, id: string)
    requires Mirrors(copy, ms, s) && p < |copy| && s + |copy| <= |ms| && Answered(ms[..s + |copy|], s + p, id)
    ensures Answered(copy, p, id)
  {
    var k :| s + p < k < s + |copy| && ms[..s + |copy|][k].callId == Some(id);
    assert copy[k - s].callId == Some(id);
  }

  lemma MirrorsAt(copy: seq<Message>, ms: seq<Message>, s: nat, i: nat)
    requires Mirrors(copy, ms, s) && i < |copy|
    ensures copy[i].role == ms[s + i].role && copy[i].calls == ms[s + i].calls
  {
  }

  /** Every result in the copy has its call before it, and every call its result after it. */
  lemma CallsStayWithResults(ms: seq<Message>, budget: nat, copy: seq<Message>, p: nat, c: Call)
    requires Transcript(ms) && copy == ShrinkAll(Finished(ms)[Opening(Finished(ms), budget)..], budget) && p < |copy|
    ensures copy[p].role == Tool ==> HasCallBefore(copy, p)
    ensures c in copy[p].calls ==> Answered(copy, p, c.id)
  {
    hide HasCallBefore, Answered, Transcript, Shrink, ShrinkAll, Opening, Finished, Mirrors;
    CopyOpens(ms, budget, copy);
    var s := Opening(Finished(ms), budget);
    if copy[p].role == Tool {
      MirroredResult(copy, ms, s, p);
    }
    if c in copy[p].calls {
      MirrorsAt(copy, ms, s, p);
      FinishedIsAnswered(ms, s + p, c);
      MirroredAnswer(copy, ms, s, p, c.id);
    }
  }

  lemma CopyOpens(ms: seq<Message>, budget: nat, copy: seq<Message>)
    requires copy == ShrinkAll(Finished(ms)[Opening(Finished(ms), budget)..], budget)
    ensures var s := Opening(Finished(ms), budget);
      Mirrors(copy, ms, s) && s + |copy| <= |ms| && ms[..s + |copy|] == Finished(ms) && (copy != [] ==> copy[0].role != Tool)
  {
    hide Shrink, ShrinkAll, Opening, Mirrors;
    var s := Opening(Finished(ms), budget);
    OpeningIsNoResult(Finished(ms), budget);
    FinishedIsPrefix(ms);
    CopyMirrors(ms, s, budget);
    hide Finished;
    if copy != [] {
      MirrorsAt(copy, ms, s, 0);
    }
  }
}
