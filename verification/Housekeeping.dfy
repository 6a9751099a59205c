/** Pruning a directory: by age first, then oldest first until the rest fits. */
module Housekeeping {
  import opened Wrappers

  datatype File = File(path: nat, modified: int, len: nat)

  datatype Pass = ByAge | BySize

  /** `fails` holds the removals that the file system refuses. */
  datatype Job = Job(cutoff: Option<int>, max: Option<nat>, dry: bool, fails: set<(nat, Pass)>) {
    predicate Removes(f: File, pass: Pass) {
      dry || (f.path, pass) !in fails
    }

    predicate Old(f: File) {
      cutoff.Some? && f.modified < cutoff.value
    }
  }

  datatype Pruned = Pruned(files: nat, bytes: nat, left: nat)

  function Sum(fs: seq<File>): nat {
    if fs == [] then 0 else Sum(fs[..|fs| - 1]) + fs[|fs| - 1].len
  }

  lemma SumSnoc(fs: seq<File>, f: File)
    ensures Sum(fs + [f]) == Sum(fs) + f.len
  {
    assert (fs + [f])[..|fs|] == fs;
  }

  lemma {:induction false} SumConcat(a: seq<File>, b: seq<File>)
    ensures Sum(a + b) == Sum(a) + Sum(b)
    decreases |b|
  {
    if b == [] {
      assert a + b == a;
    } else {
      var last := |b| - 1;
      SumConcat(a, b[..last]);
      assert a + b == (a + b[..last]) + [b[last]];
      SumSnoc(a + b[..last], b[last]);
    }
  }

  // ---------------------------------------------------------------- by age

  /** What the first pass leaves, in the order found. */
  function Young(job: Job, found: seq<File>): (kept: seq<File>)
    ensures forall f :: f in kept <==> f in found && !(job.Old(f) && job.Removes(f, ByAge))
  {
    if found == [] then []
    else
      var rest, last := Young(job, found[..|found| - 1]), found[|found| - 1];
      if job.Old(last) && job.Removes(last, ByAge) then rest else rest + [last]
  }

  // ---------------------------------------------------------------- the order

  predicate Sorted(fs: seq<File>) {
    forall i, j :: 0 <= i < j < |fs| ==> fs[i].modified <= fs[j].modified
  }

  /** `f` after everything that isn't newer. */
  function Insert(fs: seq<File>, f: File): seq<File> {
    if fs == [] || fs[|fs| - 1].modified <= f.modified then fs + [f]
    else Insert(fs[..|fs| - 1], f) + [fs[|fs| - 1]]
  }

  /** Sorted by age, those of one age in the order they were in. */
  function SortByAge(fs: seq<File>): seq<File> {
    if fs == [] then [] else Insert(SortByAge(fs[..|fs| - 1]), fs[|fs| - 1])
  }

  function OfAge(fs: seq<File>, modified: int): seq<File> {
    if fs == [] then []
    else
      var rest, last := OfAge(fs[..|fs| - 1], modified), fs[|fs| - 1];
      if last.modified == modified then rest + [last] else rest
  }

  lemma OfAgeSnoc(fs: seq<File>, f: File, m: int)
    ensures OfAge(fs + [f], m) == OfAge(fs, m) + if f.modified == m then [f] else []
  {
    assert (fs + [f])[..|fs|] == fs;
  }

  lemma {:induction false} InsertSorts(fs: seq<File>, f: File)
    requires Sorted(fs)
    ensures var r := Insert(fs, f);
      Sorted(r) && |r| == |fs| + 1 && Sum(r) == Sum(fs) + f.len && forall x :: x in r <==> x in fs || x == f
    decreases |fs|
  {
    if fs == [] || fs[|fs| - 1].modified <= f.modified {
      SumSnoc(fs, f);
    } else {
      var init, last := fs[..|fs| - 1], fs[|fs| - 1];
      InsertSorts(init, f);
      hide Insert;
      assert fs == init + [last];
      SumSnoc(Insert(init, f), last);
      InsertKeepsOrder(init, last, f, Insert(init, f));
    }
  }

  lemma {:induction false} InsertIsStable(fs: seq<File>, f: File, m: int)
    ensures OfAge(Insert(fs, f), m) == OfAge(fs + [f], m)
    decreases |fs|
  {
    if fs != [] && fs[|fs| - 1].modified > f.modified {
      var init, last := fs[..|fs| - 1], fs[|fs| - 1];
      InsertIsStable(init, f, m);
      OfAgeSnoc(fs, f, m);
      OfAgeSnoc(init, f, m);
      OfAgeSnoc(Insert(init, f), last, m);
    }
  }

  lemma InsertKeepsOrder(init: seq<File>, last: File, f: File, r: seq<File>)
    requires Sorted(init + [last]) && Sorted(r) && f.modified < last.modified
    requires forall x :: x in r <==> x in init || x == f
    ensures Sorted(r + [last])
  {
    forall i | 0 <= i < |r|
      ensures r[i].modified <= last.modified
    {
      if r[i] != f {
        assert r[i] in r;
        var k :| 0 <= k < |init| && init[k] == r[i];
        assert (init + [last])[k] == r[i] && (init + [last])[|init|] == last;
      }
    }
  }

  lemma {:induction false} SortFacts(fs: seq<File>, m: int)
    ensures var r := SortByAge(fs);
      && Sorted(r) && |r| == |fs| && Sum(r) == Sum(fs) && (forall x :: x in r <==> x in fs)
      && OfAge(r, m) == OfAge(fs, m)
  {
    if fs != [] {
      var init, last := fs[..|fs| - 1], fs[|fs| - 1];
      SortFacts(init, m);
      InsertSorts(SortByAge(init), last);
      InsertIsStable(SortByAge(init), last, m);
      OfAgeSnoc(SortByAge(init), last, m);
      assert fs == init + [last];
    }
  }

  // ---------------------------------------------------------------- by size

  /** What the second pass leaves of `fs`, when `total` bytes are there. */
  function Fits(job: Job, max: nat, fs: seq<File>, total: nat): (rest: seq<File>)
    requires Sum(fs) <= total
    decreases |fs|
  {
    if fs == [] then []
    else
      SumConcat([fs[0]], fs[1..]);
      assert [fs[0]] + fs[1..] == fs && Sum([fs[0]]) == fs[0].len;
      if total > max && job.Removes(fs[0], BySize) then Fits(job, max, fs[1..], total - fs[0].len)
      else [fs[0]] + Fits(job, max, fs[1..], total)
  }

  /** What a whole pass leaves. */
  function Left(job: Job, found: seq<File>): seq<File> {
    var kept := Young(job, found);
    match job.max
    case None => kept
    case Some(max) =>
      SortFacts(kept, 0);
      Fits(job, max, SortByAge(kept), Sum(kept))
  }

  ghost predicate Distinct(fs: seq<File>) {
    forall i, j :: 0 <= i < j < |fs| ==> fs[i] != fs[j]
  }

  /** What a pass has in store of `was` after `done` of the files found, `kept` of them left. */
  ghost predicate Stored(files: set<File>, was: set<File>, job: Job, found: seq<File>, kept: seq<File>) {
    forall f :: f in files <==> f in was && (job.dry || f !in found || f in kept)
  }

  lemma NothingStored(files: set<File>, job: Job)
    ensures Stored(files, files, job, [], [])
  {
  }

  lemma AgeStep(job: Job, found: seq<File>, i: nat)
    requires i < |found|
    ensures Sum(found[..i + 1]) == Sum(found[..i]) + found[i].len
    ensures Sum(Young(job, found[..i]) + [found[i]]) == Sum(Young(job, found[..i])) + found[i].len
    ensures Young(job, found[..i + 1]) ==
      if job.Old(found[i]) && job.Removes(found[i], ByAge) then Young(job, found[..i])
      else Young(job, found[..i]) + [found[i]]
  {
    assert found[..i + 1][..i] == found[..i];
    SumSnoc(Young(job, found[..i]), found[i]);
  }

  lemma StoreStep(files: set<File>, was: set<File>, job: Job, found: seq<File>, i: nat, kept: seq<File>)
    requires Distinct(found) && i < |found| && Stored(files, was, job, found[..i], kept)
    requires kept == Young(job, found[..i])
    ensures Stored(files, was, job, found[..i + 1], kept + [found[i]])
    ensures Stored(if job.dry then files else files - {found[i]}, was, job, found[..i + 1], kept)
  {
    var f := found[i];
    assert found[..i + 1] == found[..i] + [f];
    assert f !in found[..i];
    assert forall x :: x in kept ==> x in found[..i];
    hide Distinct, Young;
  }

  lemma SameStored(files: set<File>, was: set<File>, job: Job, found: seq<File>, kept: seq<File>, sorted: seq<File>)
    requires Stored(files, was, job, found, kept) && forall f :: f in sorted <==> f in kept
    ensures Stored(files, was, job, found, sorted)
  {
  }

  lemma SizeStep(job: Job, max: nat, sorted: seq<File>, i: nat, rest: seq<File>, total: nat)
    requires i < |sorted| && total == Sum(rest) + Sum(sorted[i..])
    ensures total >= sorted[i].len && Sum(sorted[i + 1..]) + sorted[i].len == Sum(sorted[i..])
    ensures Sum(rest + [sorted[i]]) == Sum(rest) + sorted[i].len
    ensures var later := Fits(job, max, sorted[i..], total);
      if total > max && job.Removes(sorted[i], BySize)
      then rest + later == rest + Fits(job, max, sorted[i + 1..], total - sorted[i].len)
      else rest + later == rest + [sorted[i]] + Fits(job, max, sorted[i + 1..], total)
  {
    SumSnoc(rest, sorted[i]);
    SumConcat([sorted[i]], sorted[i + 1..]);
    assert [sorted[i]] + sorted[i + 1..] == sorted[i..] && sorted[i..][1..] == sorted[i + 1..];
    assert Sum([sorted[i]]) == sorted[i].len;
  }

  lemma SizeStarts(sorted: seq<File>)
    ensures [] + sorted[0..] == sorted[0..] == sorted && Sum([]) == 0
  {
  }

  lemma SizeEnds(job: Job, max: nat, sorted: seq<File>, rest: seq<File>, total: nat)
    requires total == Sum(rest) + Sum(sorted[|sorted|..])
    ensures rest + Fits(job, max, sorted[|sorted|..], total) == rest == rest + sorted[|sorted|..] && total == Sum(rest)
  {
  }

  lemma DropStep(files: set<File>, was: set<File>, job: Job, found: seq<File>, rest: seq<File>, sorted: seq<File>, i: nat)
    requires i < |sorted| && Distinct(rest + sorted[i..]) && Stored(files, was, job, found, rest + sorted[i..])
    requires forall f :: f in sorted ==> f in found
    ensures rest + [sorted[i]] + sorted[i + 1..] == rest + sorted[i..] && Distinct(rest + sorted[i + 1..])
    ensures Stored(if job.dry then files else files - {sorted[i]}, was, job, found, rest + sorted[i + 1..])
  {
    assert sorted[i] in sorted;
    var all, fewer := rest + sorted[i..], rest + sorted[i + 1..];
    assert all[..|rest|] == rest && all[|rest|] == sorted[i] && all[|rest| + 1..] == sorted[i + 1..];
    assert all == rest + [sorted[i]] + sorted[i + 1..];
    LeaveOut(all, fewer, |rest|);
  }

  lemma LeaveOut(all: seq<File>, fewer: seq<File>, k: nat)
    requires Distinct(all) && k < |all| && fewer == all[..k] + all[k + 1..]
    ensures Distinct(fewer) && forall f :: f in fewer <==> f in all && f != all[k]
  {
    forall f | f in all && f != all[k]
      ensures f in fewer
    {
      var i :| 0 <= i < |all| && all[i] == f;
      assert f == if i < k then fewer[i] else fewer[i - 1];
    }
    assert forall i :: 0 <= i < |fewer| ==> fewer[i] == all[if i < k then i else i + 1];
  }

  lemma {:induction false} YoungDistinct(job: Job, found: seq<File>)
    requires Distinct(found)
    ensures Distinct(Young(job, found))
  {
    if found != [] {
      YoungDistinct(job, found[..|found| - 1]);
    }
  }

  lemma AppendDistinct(fs: seq<File>, f: File)
    requires Distinct(fs) && f !in fs
    ensures Distinct(fs + [f])
  {
    assert forall i :: 0 <= i < |fs| ==> fs[i] in fs;
  }

  lemma {:induction false} InsertDistinct(fs: seq<File>, f: File)
    requires Sorted(fs) && Distinct(fs) && f !in fs
    ensures Distinct(Insert(fs, f))
    decreases |fs|
  {
    if fs != [] && fs[|fs| - 1].modified > f.modified {
      InsertDistinct(fs[..|fs| - 1], f);
      InsertSorts(fs[..|fs| - 1], f);
      AppendDistinct(Insert(fs[..|fs| - 1], f), fs[|fs| - 1]);
    } else {
      AppendDistinct(fs, f);
    }
  }

  lemma {:induction false} SortDistinct(fs: seq<File>)
    requires Distinct(fs)
    ensures Distinct(SortByAge(fs))
  {
    if fs != [] {
      var init, last := fs[..|fs| - 1], fs[|fs| - 1];
      SortFacts(init, 0);
      SortDistinct(init);
      InsertDistinct(SortByAge(init), last);
    }
  }

  class Directory {
    var files: set<File>

    constructor (files: set<File>)
      ensures this.files == files
    {
      this.files := files;
    }

    method Gone(f: File, job: Job, pass: Pass) returns (removed: bool)
      modifies this
      ensures removed == job.Removes(f, pass) && files == if removed && !job.dry then old(files) - {f} else old(files)
      ensures removed <==> job.dry || (f.path, pass) !in job.fails
    {
      removed := job.dry || (f.path, pass) !in job.fails;
      if removed && !job.dry {
        files := files - {f};
      }
    }

    method PruneByAge(found: seq<File>, job: Job) returns (kept: seq<File>, count: nat, bytes: nat)
      requires Distinct(found)
      modifies this
      ensures kept == Young(job, found) && Stored(files, old(files), job, found, kept)
      ensures count == |found| - |kept| && bytes == Sum(found) - Sum(kept)
    {
      hide Stored, Distinct;
      ghost var was := files;
      kept, count, bytes := [], 0, 0;
      var i := 0;
      NothingStored(files, job);
      while i < |found|
        invariant 0 <= i <= |found| && kept == Young(job, found[..i])
        invariant Stored(files, was, job, found[..i], kept)
        invariant count == i - |kept| && bytes == Sum(found[..i]) - Sum(kept)
      {
        AgeStep(job, found, i);
        StoreStep(files, was, job, found, i, kept);
        hide Young, Sum;
        var f := found[i];
        var removed := false;
        if job.Old(f) {
          removed := Gone(f, job, ByAge);
        }
        if removed {
          count := count + 1;
          bytes := bytes + f.len;
        } else {
          kept := kept + [f];
        }
        i := i + 1;
      }
      assert found[..i] == found;
    }

    method PruneBySize(found: seq<File>, kept: seq<File>, job: Job, max: nat, ghost was: set<File>)
      returns (rest: seq<File>, count: nat, bytes: nat)
      requires Distinct(kept) && Stored(files, was, job, found, kept) && forall f :: f in kept ==> f in found
      modifies this
      ensures Sum(SortByAge(kept)) == Sum(kept) && rest == Fits(job, max, SortByAge(kept), Sum(kept))
      ensures Stored(files, was, job, found, rest)
      ensures count + |rest| == |kept| && bytes + Sum(rest) == Sum(kept)
    {
      hide Stored, Distinct, Fits, Sum, SortByAge, Sorted, OfAge;
      var sorted := SortByAge(kept);
      SortFacts(kept, 0);
      SortDistinct(kept);
      SameStored(files, was, job, found, kept, sorted);
      rest, count, bytes := DropOldest(found, sorted, job, max, was);
    }

    method DropOldest(found: seq<File>, sorted: seq<File>, job: Job, max: nat, ghost was: set<File>)
      returns (rest: seq<File>, count: nat, bytes: nat)
      requires Distinct(sorted) && Stored(files, was, job, found, sorted) && forall f :: f in sorted ==> f in found
      modifies this
      ensures rest == Fits(job, max, sorted, Sum(sorted)) && Stored(files, was, job, found, rest)
      ensures count + |rest| == |sorted| && bytes + Sum(rest) == Sum(sorted)
    {
      hide Stored, Distinct, Fits, Sum;
      var total := Sum(sorted);
      rest, count, bytes := [], 0, 0;
      var i := 0;
      SizeStarts(sorted);
      while i < |sorted|
        invariant 0 <= i <= |sorted| && total == Sum(rest) + Sum(sorted[i..])
        invariant rest + Fits(job, max, sorted[i..], total) == Fits(job, max, sorted, Sum(sorted))
        invariant Stored(files, was, job, found, rest + sorted[i..]) && Distinct(rest + sorted[i..])
        invariant count == i - |rest| && bytes + total == Sum(sorted)
      {
        var f := sorted[i];
        SizeStep(job, max, sorted, i, rest, total);
        DropStep(files, was, job, found, rest, sorted, i);
        var removed := false;
        if total > max {
          removed := Gone(f, job, BySize);
        }
        if removed {
          count := count + 1;
          bytes := bytes + f.len;
          total := total - f.len;
        } else {
          rest := rest + [f];
        }
        i := i + 1;
      }
      SizeEnds(job, max, sorted, rest, total);
    }

    /** `found` is every file below the directory, as the walk lists them. */
    method PruneDir(found: seq<File>, job: Job) returns (p: Pruned)
      requires Distinct(found)
      modifies this
      ensures Stored(files, old(files), job, found, Left(job, found))
      ensures p.left == Sum(Left(job, found)) && p.files + |Left(job, found)| == |found|
      ensures p.bytes + p.left == Sum(found)
    {
      var kept, count, bytes := PruneByAge(found, job);
      if job.max.Some? {
        YoungDistinct(job, found);
        var rest, n, freed := PruneBySize(found, kept, job, job.max.value, old(files));
        kept := rest;
        count, bytes := count + n, bytes + freed;
      }
      var left := 0;
      var i := 0;
      while i < |kept|
        invariant 0 <= i <= |kept| && left == Sum(kept[..i])
      {
        assert kept[..i + 1][..i] == kept[..i];
        left := left + kept[i].len;
        i := i + 1;
      }
      assert kept[..i] == kept;
      p := Pruned(count, bytes, left);
    }
  }

  // ---------------------------------------------------------------- what a pass leaves

  /** On a dry run nothing fails. */
  ghost predicate NoneFails(job: Job, found: seq<File>, pass: Pass) {
    job.dry || forall f :: f in found ==> (f.path, pass) !in job.fails
  }

  lemma {:induction false} EnoughFits(job: Job, max: nat, fs: seq<File>, total: nat)
    requires Sum(fs) <= total <= max
    ensures Fits(job, max, fs, total) == fs
    decreases |fs|
  {
    if fs != [] {
      SumConcat([fs[0]], fs[1..]);
      assert [fs[0]] + fs[1..] == fs;
      EnoughFits(job, max, fs[1..], total);
    }
  }

  /** How many of the oldest have to go. */
  ghost predicate ShortestPrefix(fs: seq<File>, k: nat, max: nat) {
    k <= |fs| && Sum(fs[k..]) <= max && (k > 0 ==> Sum(fs[k - 1..]) > max)
  }

  lemma {:induction false} DropsOldest(job: Job, max: nat, fs: seq<File>, i: nat) returns (k: nat)
    requires NoneFails(job, fs, BySize) && i <= |fs| && (i > 0 ==> Sum(fs[i - 1..]) > max)
    ensures ShortestPrefix(fs, k, max) && Fits(job, max, fs[i..], Sum(fs[i..])) == fs[k..]
    decreases |fs| - i
  {
    if Sum(fs[i..]) <= max {
      EnoughFits(job, max, fs[i..], Sum(fs[i..]));
      k := i;
    } else {
      assert i < |fs|;
      SizeStep(job, max, fs, i, [], Sum(fs[i..]));
      k := DropsOldest(job, max, fs, i + 1);
      hide Sum;
      assert fs[i] in fs;
    }
  }

  /** Nothing failing: exactly the expired files go, then of the rest, in order of age, no more than it takes. */
  lemma PruneIsExact(job: Job, found: seq<File>)
    requires NoneFails(job, found, ByAge) && NoneFails(job, found, BySize)
    ensures var young := Young(job, found);
      && (forall f :: f in young <==> f in found && !(job.cutoff.Some? && f.modified < job.cutoff.value))
      && (job.max.None? ==> Left(job, found) == young)
    ensures job.max.Some? ==>
      var sorted := SortByAge(Young(job, found));
      && Sorted(sorted)
      && exists k: nat :: ShortestPrefix(sorted, k, job.max.value) && Left(job, found) == sorted[k..]
  {
    var young := Young(job, found);
    SortFacts(young, 0);
    if job.max.Some? {
      var sorted := SortByAge(young);
      assert sorted[0..] == sorted;
      hide SortByAge, Sorted, Sum, Fits;
      var k := DropsOldest(job, job.max.value, sorted, 0);
      assert ShortestPrefix(sorted, k, job.max.value) && Left(job, found) == sorted[k..];
    }
  }

  /** The order is by age, and files of one age keep the order they were found in. */
  lemma OrderIsStable(job: Job, found: seq<File>, m: int)
    ensures var young := Young(job, found);
      Sorted(SortByAge(young)) && OfAge(SortByAge(young), m) == OfAge(young, m)
  {
    SortFacts(Young(job, found), m);
  }

  lemma {:induction false} TooMuchIsStuck(job: Job, max: nat, fs: seq<File>, before: nat, f: File)
    requires f in Fits(job, max, fs, before + Sum(fs)) && before + Sum(Fits(job, max, fs, before + Sum(fs))) > max
    ensures f in fs && !job.Removes(f, BySize)
    decreases |fs|
  {
    var total, rest := before + Sum(fs), fs[1..];
    SumConcat([fs[0]], rest);
    assert [fs[0]] + rest == fs && Sum([fs[0]]) == fs[0].len;
    if total > max && job.Removes(fs[0], BySize) {
      TooMuchIsStuck(job, max, rest, before, f);
    } else {
      var later := Fits(job, max, rest, total);
      SumConcat([fs[0]], later);
      if total <= max {
        EnoughFits(job, max, fs, total);
      } else if f != fs[0] {
        TooMuchIsStuck(job, max, rest, before + fs[0].len, f);
      }
    }
  }

  /** Whatever fails: more than the cap is left only when nothing left can be removed. */
  lemma OverCapIsStuck(job: Job, found: seq<File>, f: File)
    requires job.max.Some? && Sum(Left(job, found)) > job.max.value && f in Left(job, found)
    ensures f in found && !job.dry && (f.path, BySize) in job.fails
  {
    hide Fits, Young, Sum, SortByAge, Sorted, OfAge;
    SortFacts(Young(job, found), 0);
    TooMuchIsStuck(job, job.max.value, SortByAge(Young(job, found)), 0, f);
  }

  lemma {:induction false} YoungAgrees(a: Job, b: Job, found: seq<File>)
    requires a.cutoff == b.cutoff && NoneFails(a, found, ByAge) && NoneFails(b, found, ByAge)
    ensures Young(a, found) == Young(b, found)
  {
    if found != [] {
      YoungAgrees(a, b, found[..|found| - 1]);
    }
  }

  lemma {:induction false} FitsAgrees(a: Job, b: Job, max: nat, fs: seq<File>, total: nat)
    requires Sum(fs) <= total && NoneFails(a, fs, BySize) && NoneFails(b, fs, BySize)
    ensures Fits(a, max, fs, total) == Fits(b, max, fs, total)
    decreases |fs|
  {
    if fs != [] {
      SumConcat([fs[0]], fs[1..]);
      assert [fs[0]] + fs[1..] == fs && Sum([fs[0]]) == fs[0].len;
      assert fs[0] in fs;
      FitsAgrees(a, b, max, fs[1..], total);
      if total > max {
        FitsAgrees(a, b, max, fs[1..], total - fs[0].len);
      }
    }
  }

  /** A dry run tells what a real one leaves, as long as no removal fails. */
  lemma DryRunTells(job: Job, found: seq<File>)
    requires NoneFails(job, found, ByAge) && NoneFails(job, found, BySize)
    ensures Left(job.(dry := true), found) == Left(job, found)
  {
    YoungAgrees(job.(dry := true), job, found);
    SortFacts(Young(job, found), 0);
    if job.max.Some? {
      FitsAgrees(job.(dry := true), job, job.max.value, SortByAge(Young(job, found)), Sum(Young(job, found)));
    }
  }
}
