/** Files that change together: tallies over commits, and the coupled pairs reported from them. */
module ChangeCoupling {
  import opened Basics
  import opened TextOrder

  const MAX_FILES_PER_COMMIT := 50
  const MIN_TOTAL_REVISIONS := 10
  const MIN_SHARED_COMMITS := 10
  const MIN_COUPLING := 0.5

  type Pair = (string, string)

  datatype CoupledPair = CoupledPair(fileA: string, fileB: string, revisionsA: nat, revisionsB: nat,
                                     sharedCommits: nat, coupling: real)

  /** Strictly ascending, so without repetition. */
  ghost predicate Ascending(s: seq<string>)
  {
    forall i, j :: 0 <= i < j < |s| ==> Less(s[i], s[j])
  }

  /** Inserts a name into an ascending list unless it is there already. */
  function Insert(s: seq<string>, x: string): (r: seq<string>)
    requires Ascending(s)
    ensures Ascending(r) && forall y :: y in r <==> y == x || y in s
  {
    if s == [] then [x]
    else if s[0] == x then s
    else if Less(x, s[0]) then
      assert forall i :: 0 <= i < |s| ==> Less(x, s[i]) by {
        forall i | 0 < i < |s| ensures Less(x, s[i]) { LessTrans(x, s[0], s[i]); }
      }
      [x] + s
    else
      LessTotal(x, s[0]);
      var rest := Insert(s[1..], x);
      assert s == [s[0]] + s[1..];
      assert forall y :: y in rest ==> Less(s[0], y);
      [s[0]] + rest
  }

  /** The distinct files of a commit, in order. */
  function SortDedup(files: seq<string>): (r: seq<string>)
    ensures Ascending(r) && forall y :: y in r <==> y in files
  {
    if files == [] then []
    else
      assert files == files[..|files| - 1] + [files[|files| - 1]];
      Insert(SortDedup(files[..|files| - 1]), files[|files| - 1])
  }

  // ---------------------------------------------------------------------------
  // Counts
  // ---------------------------------------------------------------------------

  /** Mass refactorings and empty commits are not counted. */
  predicate Included(commit: seq<string>)
  {
    0 < |commit| <= 50
  }

  /** The included commits that change `f`. */
  function RevisionCount(commits: seq<seq<string>>, f: string): nat
  {
    if commits == [] then 0
    else
      var last := commits[|commits| - 1];
      RevisionCount(commits[..|commits| - 1], f) + if Included(last) && f in last then 1 else 0
  }

  /** The included commits that change both files. */
  function SharedCount(commits: seq<seq<string>>, p: Pair): nat
  {
    if commits == [] then 0
    else
      var last := commits[|commits| - 1];
      SharedCount(commits[..|commits| - 1], p) + if Included(last) && p.0 in last && p.1 in last then 1 else 0
  }

  function CountOf<K>(m: map<K, nat>, k: K): nat
  {
    if k in m then m[k] else 0
  }

  ghost predicate Positive<K(!new)>(m: map<K, nat>)
  {
    forall k :: k in m ==> m[k] > 0
  }

  ghost predicate CountsRevisions(m: map<string, nat>, commits: seq<seq<string>>)
  {
    Positive(m) && forall f :: CountOf(m, f) == RevisionCount(commits, f)
  }

  ghost predicate CountsShared(m: map<Pair, nat>, commits: seq<seq<string>>)
  {
    Positive(m) && forall p: Pair :: CountOf(m, p) == if Less(p.0, p.1) then SharedCount(commits, p) else 0
  }

  /** The tallies after adding one to the keys in `ks`. */
  ghost predicate Bumped<K(!new)>(before: map<K, nat>, after: map<K, nat>, ks: set<K>)
  {
    Positive(after) && forall k :: CountOf(after, k) == CountOf(before, k) + if k in ks then 1 else 0
  }

  lemma BumpOne<K(!new)>(before: map<K, nat>, m: map<K, nat>, ks: set<K>, k: K)
    requires Bumped(before, m, ks) && k !in ks
    ensures Bumped(before, m[k := CountOf(m, k) + 1], ks + {k})
  {
  }

  lemma ElementsStep(files: seq<string>, i: nat)
    requires Ascending(files) && i < |files|
    ensures files[i] !in Elements(files[..i])
    ensures Elements(files[..i + 1]) == Elements(files[..i]) + {files[i]}
  {
    LessIrreflexive(files[i]);
    assert files[..i + 1] == files[..i] + [files[i]];
  }

  method TallyRevisions(revisions: map<string, nat>, files: seq<string>) returns (tally: map<string, nat>)
    requires Ascending(files) && Positive(revisions)
    ensures Bumped(revisions, tally, Elements(files))
  {
    hide Bumped, Elements;
    tally := revisions;
    BumpNone(revisions);
    assert Elements(files[..0]) == {} by { NoElements(files[..0]); }
    for i := 0 to |files|
      invariant Bumped(revisions, tally, Elements(files[..i]))
    {
      ElementsStep(files, i);
      BumpOne(revisions, tally, Elements(files[..i]), files[i]);
      tally := tally[files[i] := CountOf(tally, files[i]) + 1];
    }
    assert files[..|files|] == files;
  }

  lemma NoElements(files: seq<string>)
    requires files == []
    ensures Elements(files) == {}
  {
  }

  lemma BumpNone<K(!new)>(m: map<K, nat>)
    requires Positive(m)
    ensures Bumped(m, m, {})
  {
  }

  /** The pairs of positions visited before the inner loop reaches `(i, j)`. */
  ghost function PairsBefore(files: seq<string>, i: nat, j: nat): set<Pair>
  {
    set x, y | 0 <= x < y < |files| && (x < i || (x == i && y < j)) :: (files[x], files[y])
  }

  lemma NextPair(files: seq<string>, i: nat, j: nat)
    requires Ascending(files) && i < j < |files|
    ensures (files[i], files[j]) !in PairsBefore(files, i, j)
    ensures PairsBefore(files, i, j + 1) == PairsBefore(files, i, j) + {(files[i], files[j])}
  {
    forall x, y | 0 <= x < y < |files| && files[x] == files[i] && files[y] == files[j] ensures x == i && y == j {
      LessIrreflexive(files[i]);
      LessIrreflexive(files[j]);
    }
  }

  lemma NextRow(files: seq<string>, i: nat)
    requires i < |files|
    ensures PairsBefore(files, i, i + 1) == PairsBefore(files, i, 0)
    ensures PairsBefore(files, i + 1, 0) == PairsBefore(files, i, |files|)
  {
  }

  lemma AllPairs(files: seq<string>, p: Pair)
    requires Ascending(files)
    ensures p in PairsBefore(files, |files|, 0) <==> Less(p.0, p.1) && p.0 in files && p.1 in files
  {
    if Less(p.0, p.1) && p.0 in files && p.1 in files {
      var x :| 0 <= x < |files| && files[x] == p.0;
      var y :| 0 <= y < |files| && files[y] == p.1;
      LessIrreflexive(p.0);
      if y < x {
        LessTrans(p.0, p.1, p.0);
      }
      assert (files[x], files[y]) in PairsBefore(files, |files|, 0);
    }
  }

  method TallyShared(shared: map<Pair, nat>, files: seq<string>) returns (tally: map<Pair, nat>)
    requires Ascending(files) && Positive(shared)
    ensures Bumped(shared, tally, PairsBefore(files, |files|, 0))
  {
    hide Bumped, PairsBefore, Ascending;
    tally := shared;
    BumpNone(shared);
    NoPairs(files);
    for i := 0 to |files|
      invariant Bumped(shared, tally, PairsBefore(files, i, 0))
    {
      NextRow(files, i);
      for j := i + 1 to |files|
        invariant Bumped(shared, tally, PairsBefore(files, i, j))
      {
        NextPair(files, i, j);
        BumpOne(shared, tally, PairsBefore(files, i, j), (files[i], files[j]));
        tally := tally[(files[i], files[j]) := CountOf(tally, (files[i], files[j])) + 1];
      }
    }
  }

  lemma NoPairs(files: seq<string>)
    ensures PairsBefore(files, 0, 0) == {}
  {
  }

  method TallyRevisionsAndSharedCommits(commits: seq<seq<string>>)
      returns (revisions: map<string, nat>, shared: map<Pair, nat>)
    ensures CountsRevisions(revisions, commits) && CountsShared(shared, commits)
  {
    hide Bumped, PairsBefore, Ascending, CountsRevisions, CountsShared;
    revisions, shared := map[], map[];
    NothingCounted();
    for i := 0 to |commits|
      invariant CountsRevisions(revisions, commits[..i]) && CountsShared(shared, commits[..i])
    {
      var commit := commits[i];
      assert commits[..i + 1][..i] == commits[..i];
      CountsArePositive(revisions, shared, commits[..i]);
      if commit == [] || |commit| > MAX_FILES_PER_COMMIT {
        CountsSkip(revisions, shared, commits[..i + 1]);
        continue;
      }
      var files := SortDedup(commit);
      var revisions' := TallyRevisions(revisions, files);
      var shared' := TallyShared(shared, files);
      RevisionsStep(revisions, revisions', commits[..i + 1], files);
      SharedStep(shared, shared', commits[..i + 1], files);
      revisions, shared := revisions', shared';
    }
    assert commits[..|commits|] == commits;
  }

  lemma NothingCounted()
    ensures CountsRevisions(map[], []) && CountsShared(map[], [])
  {
  }

  lemma CountsArePositive(revisions: map<string, nat>, shared: map<Pair, nat>, commits: seq<seq<string>>)
    requires CountsRevisions(revisions, commits) && CountsShared(shared, commits)
    ensures Positive(revisions) && Positive(shared)
  {
  }

  lemma CountsSkip(revisions: map<string, nat>, shared: map<Pair, nat>, commits: seq<seq<string>>)
    requires commits != [] && !Included(commits[|commits| - 1])
    requires CountsRevisions(revisions, commits[..|commits| - 1]) && CountsShared(shared, commits[..|commits| - 1])
    ensures CountsRevisions(revisions, commits) && CountsShared(shared, commits)
  {
  }

  lemma RevisionsStep(before: map<string, nat>, after: map<string, nat>, commits: seq<seq<string>>, files: seq<string>)
    requires commits != [] && Included(commits[|commits| - 1])
    requires CountsRevisions(before, commits[..|commits| - 1]) && Bumped(before, after, Elements(files))
    requires forall f :: f in files <==> f in commits[|commits| - 1]
    ensures CountsRevisions(after, commits)
  {
  }

  lemma SharedStep(before: map<Pair, nat>, after: map<Pair, nat>, commits: seq<seq<string>>, files: seq<string>)
    requires commits != [] && Included(commits[|commits| - 1]) && Ascending(files)
    requires CountsShared(before, commits[..|commits| - 1]) && Bumped(before, after, PairsBefore(files, |files|, 0))
    requires forall f :: f in files <==> f in commits[|commits| - 1]
    ensures CountsShared(after, commits)
  {
    hide PairsBefore, Ascending;
    forall p: Pair ensures CountOf(after, p) == if Less(p.0, p.1) then SharedCount(commits, p) else 0 {
      AllPairs(files, p);
    }
  }

  /** The single-file pass used for churn. */
  method FileRevisions(commits: seq<seq<string>>) returns (revisions: map<string, nat>)
    ensures CountsRevisions(revisions, commits)
  {
    hide Bumped, Ascending, CountsRevisions;
    revisions := map[];
    NothingCounted();
    for i := 0 to |commits|
      invariant CountsRevisions(revisions, commits[..i])
    {
      var commit := commits[i];
      assert commits[..i + 1][..i] == commits[..i];
      RevisionsArePositive(revisions, commits[..i]);
      if commit == [] || |commit| > MAX_FILES_PER_COMMIT {
        RevisionsSkip(revisions, commits[..i + 1]);
        continue;
      }
      var files := SortDedup(commit);
      var revisions' := TallyRevisions(revisions, files);
      RevisionsStep(revisions, revisions', commits[..i + 1], files);
      revisions := revisions';
    }
    assert commits[..|commits|] == commits;
  }

  lemma RevisionsArePositive(revisions: map<string, nat>, commits: seq<seq<string>>)
    requires CountsRevisions(revisions, commits)
    ensures Positive(revisions)
  {
  }

  lemma RevisionsSkip(revisions: map<string, nat>, commits: seq<seq<string>>)
    requires commits != [] && !Included(commits[|commits| - 1])
    requires CountsRevisions(revisions, commits[..|commits| - 1])
    ensures CountsRevisions(revisions, commits)
  {
  }

  /** Both passes give the same map. */
  lemma PassesAgree(a: map<string, nat>, b: map<string, nat>, commits: seq<seq<string>>)
    requires CountsRevisions(a, commits) && CountsRevisions(b, commits)
    ensures a == b
  {
    forall f ensures f in a <==> f in b {
      assert CountOf(a, f) == CountOf(b, f);
    }
    forall f | f in a ensures a[f] == b[f] {
      assert CountOf(a, f) == CountOf(b, f);
    }
  }

  /** A pair is changed together at most as often as either file is changed. */
  lemma {:induction false} SharedIsLeast(commits: seq<seq<string>>, p: Pair)
    ensures SharedCount(commits, p) <= RevisionCount(commits, p.0)
    ensures SharedCount(commits, p) <= RevisionCount(commits, p.1)
  {
    if commits != [] {
      SharedIsLeast(commits[..|commits| - 1], p);
    }
  }

  /** The second pass may subtract without underflow: every shared count fits under both files' counts. */
  ghost predicate Fit(revisions: map<string, nat>, shared: map<Pair, nat>)
  {
    forall p :: p in shared ==> 0 < shared[p] <= CountOf(revisions, p.0) && shared[p] <= CountOf(revisions, p.1)
  }

  lemma TalliesFit(revisions: map<string, nat>, shared: map<Pair, nat>, commits: seq<seq<string>>)
    requires CountsRevisions(revisions, commits) && CountsShared(shared, commits)
    ensures Fit(revisions, shared)
  {
    forall p | p in shared ensures 0 < shared[p] <= CountOf(revisions, p.0) && shared[p] <= CountOf(revisions, p.1) {
      assert CountOf(shared, p) == shared[p];
      SharedIsLeast(commits, p);
    }
  }

  // ---------------------------------------------------------------------------
  // Second pass: scores, thresholds and ranking
  // ---------------------------------------------------------------------------

  predicate PairLess(p: Pair, q: Pair)
  {
    Less(p.0, q.0) || (p.0 == q.0 && Less(p.1, q.1))
  }

  lemma PairLessTrans(p: Pair, q: Pair, r: Pair)
    requires PairLess(p, q) && PairLess(q, r)
    ensures PairLess(p, r)
  {
    if Less(p.0, q.0) && Less(q.0, r.0) {
      LessTrans(p.0, q.0, r.0);
    }
    if Less(p.1, q.1) && Less(q.1, r.1) {
      LessTrans(p.1, q.1, r.1);
    }
  }

  lemma PairLessOrder(p: Pair, q: Pair)
    ensures !PairLess(p, p)
    ensures p == q || PairLess(p, q) || PairLess(q, p)
  {
    LessIrreflexive(p.0);
    LessIrreflexive(p.1);
    LessTotal(p.0, q.0);
    LessTotal(p.1, q.1);
  }

  ghost predicate KeyOrder(keys: seq<Pair>)
  {
    forall i, j :: 0 <= i < j < |keys| ==> PairLess(keys[i], keys[j])
  }

  predicate IsFirst(p: Pair, ks: set<Pair>)
  {
    p in ks && forall q :: q in ks && q != p ==> PairLess(p, q)
  }

  lemma {:induction false} FirstExists(ks: set<Pair>)
    requires ks != {}
    ensures exists p :: IsFirst(p, ks)
  {
    var p :| p in ks;
    if ks == {p} {
      assert IsFirst(p, ks);
    } else {
      FirstExists(ks - {p});
      var q :| IsFirst(q, ks - {p});
      PairLessOrder(p, q);
      if PairLess(q, p) {
        assert IsFirst(q, ks);
      } else {
        forall r | r in ks && r != p ensures PairLess(p, r) {
          if r != q {
            PairLessTrans(p, q, r);
          }
        }
        assert IsFirst(p, ks);
      }
    }
  }

  lemma FirstIsUnique(ks: set<Pair>)
    ensures forall p, q :: IsFirst(p, ks) && IsFirst(q, ks) ==> p == q
  {
    forall p, q | IsFirst(p, ks) && IsFirst(q, ks) ensures p == q {
      if p != q {
        PairLessTrans(p, q, p);
        PairLessOrder(p, p);
      }
    }
  }

  /** The order in which an ordered map lists its keys. */
  function Keys(ks: set<Pair>): (keys: seq<Pair>)
    ensures KeyOrder(keys) && forall p :: p in keys <==> p in ks
  {
    if ks == {} then []
    else
      FirstExists(ks);
      assert forall p, q :: IsFirst(p, ks) && IsFirst(q, ks) ==> p == q by {
        FirstIsUnique(ks);
      }
      var p :| IsFirst(p, ks);
      [p] + Keys(ks - {p})
  }

  function Key(x: CoupledPair): Pair
  {
    (x.fileA, x.fileB)
  }

  function PairsAboveThresholds(revisions: map<string, nat>, shared: map<Pair, nat>, keys: seq<Pair>): seq<CoupledPair>
    requires Fit(revisions, shared) && forall p :: p in keys ==> p in shared
  {
    if keys == [] then []
    else
      var (a, b) := keys[0];
      var sharedCommits := shared[keys[0]];
      var revisionsA, revisionsB := CountOf(revisions, a), CountOf(revisions, b);
      var total: nat := revisionsA + revisionsB - sharedCommits;
      var rest := PairsAboveThresholds(revisions, shared, keys[1..]);
      if total < MIN_TOTAL_REVISIONS || sharedCommits < MIN_SHARED_COMMITS then rest
      else
        var coupling := sharedCommits as real / total as real;
        if coupling < MIN_COUPLING then rest
        else [CoupledPair(a, b, revisionsA, revisionsB, sharedCommits, coupling)] + rest
  }

  function AllPairsScored(revisions: map<string, nat>, shared: map<Pair, nat>, keys: seq<Pair>): seq<CoupledPair>
    requires Fit(revisions, shared) && forall p :: p in keys ==> p in shared
  {
    if keys == [] then []
    else
      var (a, b) := keys[0];
      var sharedCommits := shared[keys[0]];
      var revisionsA, revisionsB := CountOf(revisions, a), CountOf(revisions, b);
      var total: nat := revisionsA + revisionsB - sharedCommits;
      var coupling := if total == 0 then 0.0 else sharedCommits as real / total as real;
      [CoupledPair(a, b, revisionsA, revisionsB, sharedCommits, coupling)]
      + AllPairsScored(revisions, shared, keys[1..])
  }

  /** `x` comes before everything in the result whose coupling is not larger: a stable sort's insertion. */
  function InsertByCoupling(x: CoupledPair, s: seq<CoupledPair>): seq<CoupledPair>
  {
    if s == [] || x.coupling >= s[0].coupling then [x] + s
    else [s[0]] + InsertByCoupling(x, s[1..])
  }

  /** Stable sort, largest coupling first. */
  function SortByCoupling(s: seq<CoupledPair>): seq<CoupledPair>
  {
    if s == [] then [] else InsertByCoupling(s[0], SortByCoupling(s[1..]))
  }

  // ---------------------------------------------------------------------------
  // What is reported
  // ---------------------------------------------------------------------------

  /** The record of a pair of files that changed together at least once. */
  ghost predicate IsScore(commits: seq<seq<string>>, x: CoupledPair)
  {
    && Less(x.fileA, x.fileB)
    && x.sharedCommits == SharedCount(commits, Key(x)) > 0
    && x.revisionsA == RevisionCount(commits, x.fileA)
    && x.revisionsB == RevisionCount(commits, x.fileB)
    && x.coupling * (x.revisionsA + x.revisionsB - x.sharedCommits) as real == x.sharedCommits as real
  }

  predicate AboveThresholds(x: CoupledPair)
  {
    x.revisionsA + x.revisionsB - x.sharedCommits >= 10 && x.sharedCommits >= 10 && x.coupling >= 0.5
  }

  /** Strongest coupling first, ties by file names. */
  predicate Before(x: CoupledPair, y: CoupledPair)
  {
    x.coupling > y.coupling || (x.coupling == y.coupling && PairLess(Key(x), Key(y)))
  }

  ghost predicate Ranked(s: seq<CoupledPair>)
  {
    forall i, j :: 0 <= i < j < |s| ==> Before(s[i], s[j])
  }

  ghost predicate IsFullReport(commits: seq<seq<string>>, s: seq<CoupledPair>)
  {
    Ranked(s) && forall x :: x in s <==> IsScore(commits, x)
  }

  function KeepAboveThresholds(s: seq<CoupledPair>): seq<CoupledPair>
  {
    if s == [] then []
    else (if AboveThresholds(s[0]) then [s[0]] else []) + KeepAboveThresholds(s[1..])
  }

  ghost predicate IsReport(commits: seq<seq<string>>, s: seq<CoupledPair>)
  {
    Ranked(s) && forall x :: x in s <==> IsScore(commits, x) && AboveThresholds(x)
  }

  // ---------------------------------------------------------------------------
  // The sort is a stable sort, and there is only one
  // ---------------------------------------------------------------------------

  ghost predicate Descending(s: seq<CoupledPair>)
  {
    forall i, j :: 0 <= i < j < |s| ==> s[i].coupling >= s[j].coupling
  }

  /** The elements of one coupling value, in their order. */
  ghost function OfCoupling(s: seq<CoupledPair>, c: real): seq<CoupledPair>
  {
    if s == [] then []
    else (if s[0].coupling == c then [s[0]] else []) + OfCoupling(s[1..], c)
  }

  /** Sorted, and elements that compare equal keep their order. */
  ghost predicate IsStableSort(s: seq<CoupledPair>, sorted: seq<CoupledPair>)
  {
    Descending(sorted) && forall c :: OfCoupling(sorted, c) == OfCoupling(s, c)
  }

  lemma {:induction false} InsertHolds(x: CoupledPair, s: seq<CoupledPair>)
    ensures forall y :: y in InsertByCoupling(x, s) <==> y == x || y in s
  {
    if s != [] && x.coupling < s[0].coupling {
      InsertHolds(x, s[1..]);
      assert s == [s[0]] + s[1..];
    }
  }

  lemma {:induction false} InsertDescends(x: CoupledPair, s: seq<CoupledPair>)
    requires Descending(s)
    ensures Descending(InsertByCoupling(x, s))
  {
    if s != [] && x.coupling < s[0].coupling {
      InsertDescends(x, s[1..]);
      InsertHolds(x, s[1..]);
      assert forall y :: y in InsertByCoupling(x, s[1..]) ==> s[0].coupling >= y.coupling;
    }
  }

  lemma OfCouplingCons(x: CoupledPair, s: seq<CoupledPair>, c: real)
    ensures OfCoupling([x] + s, c) == (if x.coupling == c then [x] else []) + OfCoupling(s, c)
  {
    assert ([x] + s)[1..] == s;
  }

  lemma {:induction false} InsertIsStable(x: CoupledPair, s: seq<CoupledPair>, c: real)
    ensures OfCoupling(InsertByCoupling(x, s), c) == OfCoupling([x] + s, c)
  {
    hide OfCoupling;
    if s != [] && x.coupling < s[0].coupling {
      var rest := InsertByCoupling(x, s[1..]);
      InsertIsStable(x, s[1..], c);
      OfCouplingCons(s[0], rest, c);
      OfCouplingCons(x, s[1..], c);
      OfCouplingCons(s[0], s[1..], c);
      OfCouplingCons(x, s, c);
      assert s == [s[0]] + s[1..];
    }
  }

  lemma {:induction false} SortIsStable(s: seq<CoupledPair>)
    ensures IsStableSort(s, SortByCoupling(s))
    ensures forall y :: y in SortByCoupling(s) <==> y in s
  {
    if s != [] {
      var rest := SortByCoupling(s[1..]);
      SortIsStable(s[1..]);
      InsertHolds(s[0], rest);
      InsertDescends(s[0], rest);
      assert s == [s[0]] + s[1..];
      forall c ensures OfCoupling(SortByCoupling(s), c) == OfCoupling(s, c) {
        InsertIsStable(s[0], rest, c);
        OfCouplingCons(s[0], rest, c);
      }
    }
  }

  lemma {:induction false} OfCouplingHolds(s: seq<CoupledPair>, c: real)
    ensures OfCoupling(s, c) == [] <==> forall x :: x in s ==> x.coupling != c
  {
    if s != [] {
      OfCouplingHolds(s[1..], c);
      assert s == [s[0]] + s[1..];
    }
  }

  lemma HeadsCompare(a: seq<CoupledPair>, b: seq<CoupledPair>)
    requires a != [] && Descending(b) && OfCoupling(a, a[0].coupling) == OfCoupling(b, a[0].coupling)
    ensures b != [] && b[0].coupling >= a[0].coupling
  {
    OfCouplingHolds(b, a[0].coupling);
  }

  /** Whatever stable sort is used, the result is the same. */
  lemma {:induction false} StableSortIsUnique(a: seq<CoupledPair>, b: seq<CoupledPair>)
    requires Descending(a) && Descending(b)
    requires forall c :: OfCoupling(a, c) == OfCoupling(b, c)
    ensures a == b
    decreases |a|
  {
    if a != [] {
      HeadsCompare(a, b);
    }
    if b != [] {
      HeadsCompare(b, a);
    }
    if a != [] && b != [] {
      assert OfCoupling(a, a[0].coupling)[0] == a[0];
      assert OfCoupling(b, b[0].coupling)[0] == b[0];
      forall c ensures OfCoupling(a[1..], c) == OfCoupling(b[1..], c) {
        TailOfCoupling(a, c);
        TailOfCoupling(b, c);
      }
      StableSortIsUnique(a[1..], b[1..]);
      assert a == [a[0]] + a[1..] && b == [b[0]] + b[1..];
    }
  }

  lemma TailOfCoupling(s: seq<CoupledPair>, c: real)
    requires s != []
    ensures OfCoupling(s[1..], c) == if s[0].coupling == c then OfCoupling(s, c)[1..] else OfCoupling(s, c)
  {
  }

  // ---------------------------------------------------------------------------
  // From tallies to ranked reports
  // ---------------------------------------------------------------------------

  ghost predicate KeysAscend(s: seq<CoupledPair>)
  {
    forall i, j :: 0 <= i < j < |s| ==> PairLess(Key(s[i]), Key(s[j]))
  }

  lemma {:induction false} InsertRanks(x: CoupledPair, s: seq<CoupledPair>)
    requires Ranked(s) && forall y :: y in s ==> PairLess(Key(x), Key(y))
    ensures Ranked(InsertByCoupling(x, s))
  {
    hide PairLess;
    if s != [] && x.coupling < s[0].coupling {
      InsertRanks(x, s[1..]);
      InsertHolds(x, s[1..]);
      assert forall y :: y in InsertByCoupling(x, s[1..]) ==> Before(s[0], y);
    }
  }

  lemma {:induction false} SortRanks(s: seq<CoupledPair>)
    requires KeysAscend(s)
    ensures Ranked(SortByCoupling(s)) && forall y :: y in SortByCoupling(s) <==> y in s
  {
    if s != [] {
      SortRanks(s[1..]);
      assert s == [s[0]] + s[1..];
      InsertHolds(s[0], SortByCoupling(s[1..]));
      InsertRanks(s[0], SortByCoupling(s[1..]));
    }
  }

  /** The record the tallies give for a pair. */
  ghost predicate IsTallied(revisions: map<string, nat>, shared: map<Pair, nat>, x: CoupledPair)
  {
    && Key(x) in shared
    && x.sharedCommits == shared[Key(x)]
    && x.revisionsA == CountOf(revisions, x.fileA)
    && x.revisionsB == CountOf(revisions, x.fileB)
    && x.coupling * (x.revisionsA + x.revisionsB - x.sharedCommits) as real == x.sharedCommits as real
  }

  lemma Quotient(s: nat, total: nat, c: real)
    requires 0 < s && s <= total
    ensures c == s as real / total as real <==> c * total as real == s as real
    ensures 0.0 < s as real / total as real <= 1.0
    ensures s as real / total as real == 1.0 <==> s == total
  {
    var q := s as real / total as real;
    assert q * total as real == s as real;
    if c * total as real == s as real {
      assert (c - q) * total as real == 0.0;
    }
  }

  lemma {:induction false} AllPairsAreTallied(revisions: map<string, nat>, shared: map<Pair, nat>, keys: seq<Pair>)
    requires Fit(revisions, shared) && KeyOrder(keys) && forall p :: p in keys ==> p in shared
    ensures KeysAscend(AllPairsScored(revisions, shared, keys))
    ensures forall x :: x in AllPairsScored(revisions, shared, keys)
              <==> Key(x) in keys && IsTallied(revisions, shared, x)
  {
    hide Fit, IsTallied;
    if keys != [] {
      AllPairsAreTallied(revisions, shared, keys[1..]);
      var all := AllPairsScored(revisions, shared, keys);
      assert keys == [keys[0]] + keys[1..];
      assert all == [all[0]] + AllPairsScored(revisions, shared, keys[1..]);
      forall x ensures x == all[0] <==> Key(x) == keys[0] && IsTallied(revisions, shared, x) {
        FirstIsTallied(revisions, shared, keys, x);
      }
      forall x | x in AllPairsScored(revisions, shared, keys[1..]) ensures PairLess(keys[0], Key(x)) {
      }
    }
  }

  lemma FirstIsTallied(revisions: map<string, nat>, shared: map<Pair, nat>, keys: seq<Pair>, x: CoupledPair)
    requires Fit(revisions, shared) && keys != [] && forall p :: p in keys ==> p in shared
    ensures x == AllPairsScored(revisions, shared, keys)[0] <==> Key(x) == keys[0] && IsTallied(revisions, shared, x)
  {
    var p := keys[0];
    var total: nat := CountOf(revisions, p.0) + CountOf(revisions, p.1) - shared[p];
    Quotient(shared[p], total, x.coupling);
    Quotient(shared[p], total, AllPairsScored(revisions, shared, keys)[0].coupling);
  }

  /** Filtering while scoring is filtering the scores. */
  lemma {:induction false} ThresholdsFilterScores(revisions: map<string, nat>, shared: map<Pair, nat>, keys: seq<Pair>)
    requires Fit(revisions, shared) && forall p :: p in keys ==> p in shared
    ensures PairsAboveThresholds(revisions, shared, keys)
            == KeepAboveThresholds(AllPairsScored(revisions, shared, keys))
  {
    if keys != [] {
      ThresholdsFilterScores(revisions, shared, keys[1..]);
      var all := AllPairsScored(revisions, shared, keys);
      assert all[1..] == AllPairsScored(revisions, shared, keys[1..]);
    }
  }

  lemma {:induction false} KeepHolds(s: seq<CoupledPair>)
    ensures forall x :: x in KeepAboveThresholds(s) <==> x in s && AboveThresholds(x)
  {
    hide AboveThresholds;
    if s != [] {
      KeepHolds(s[1..]);
      assert s == [s[0]] + s[1..];
    }
  }

  lemma {:induction false} KeepKeepsRanking(s: seq<CoupledPair>)
    requires Ranked(s)
    ensures Ranked(KeepAboveThresholds(s))
  {
    hide AboveThresholds, Before;
    if s != [] {
      KeepKeepsRanking(s[1..]);
      KeepHolds(s[1..]);
      assert forall x :: x in KeepAboveThresholds(s[1..]) ==> Before(s[0], x);
    }
  }

  lemma {:induction false} KeepKeepsKeys(s: seq<CoupledPair>)
    requires KeysAscend(s)
    ensures KeysAscend(KeepAboveThresholds(s))
  {
    hide AboveThresholds, PairLess;
    if s != [] {
      KeepKeepsKeys(s[1..]);
      KeepHolds(s[1..]);
      assert forall x :: x in KeepAboveThresholds(s[1..]) ==> PairLess(Key(s[0]), Key(x));
    }
  }

  lemma TalliedIsScore(revisions: map<string, nat>, shared: map<Pair, nat>, commits: seq<seq<string>>, x: CoupledPair)
    requires CountsRevisions(revisions, commits) && CountsShared(shared, commits)
    ensures IsTallied(revisions, shared, x) <==> IsScore(commits, x)
  {
    assert CountOf(shared, Key(x)) == if Less(x.fileA, x.fileB) then SharedCount(commits, Key(x)) else 0;
    assert CountOf(revisions, x.fileA) == RevisionCount(commits, x.fileA);
    assert CountOf(revisions, x.fileB) == RevisionCount(commits, x.fileB);
  }

  method ComputeCoupling(commits: seq<seq<string>>) returns (pairs: seq<CoupledPair>)
    ensures IsReport(commits, pairs)
  {
    hide CountsRevisions, CountsShared, Fit, IsTallied, IsScore, Ranked, KeysAscend, KeyOrder;
    var revisions, shared := TallyRevisionsAndSharedCommits(commits);
    TalliesFit(revisions, shared, commits);
    var keys := Keys(shared.Keys);
    pairs := PairsAboveThresholds(revisions, shared, keys);
    ThresholdsFilterScores(revisions, shared, keys);
    AllPairsAreTallied(revisions, shared, keys);
    KeepHolds(AllPairsScored(revisions, shared, keys));
    KeepKeepsKeys(AllPairsScored(revisions, shared, keys));
    SortRanks(pairs);
    pairs := SortByCoupling(pairs);
    ScoresOfKeys(revisions, shared, commits, keys);
  }

  method ComputeCouplingUnfiltered(commits: seq<seq<string>>) returns (pairs: seq<CoupledPair>)
    ensures IsFullReport(commits, pairs)
  {
    hide CountsRevisions, CountsShared, Fit, IsTallied, IsScore, Ranked, KeysAscend, KeyOrder;
    var revisions, shared := TallyRevisionsAndSharedCommits(commits);
    TalliesFit(revisions, shared, commits);
    var keys := Keys(shared.Keys);
    pairs := AllPairsScored(revisions, shared, keys);
    AllPairsAreTallied(revisions, shared, keys);
    SortRanks(pairs);
    pairs := SortByCoupling(pairs);
    ScoresOfKeys(revisions, shared, commits, keys);
  }

  lemma ScoresOfKeys(revisions: map<string, nat>, shared: map<Pair, nat>, commits: seq<seq<string>>, keys: seq<Pair>)
    requires CountsRevisions(revisions, commits) && CountsShared(shared, commits)
    requires forall p :: p in keys <==> p in shared
    ensures forall x :: Key(x) in keys && IsTallied(revisions, shared, x) <==> IsScore(commits, x)
  {
    forall x ensures Key(x) in keys && IsTallied(revisions, shared, x) <==> IsScore(commits, x) {
      TalliedIsScore(revisions, shared, commits, x);
    }
  }

  // ---------------------------------------------------------------------------
  // Main results
  // ---------------------------------------------------------------------------

  lemma BeforeIsStrict(x: CoupledPair, y: CoupledPair)
    ensures !(Before(x, y) && Before(y, x))
  {
    PairLessOrder(Key(x), Key(y));
    if PairLess(Key(x), Key(y)) && PairLess(Key(y), Key(x)) {
      PairLessTrans(Key(x), Key(y), Key(x));
    }
  }

  /** A ranked list is determined by what is in it. */
  lemma {:induction false} RankingIsUnique(a: seq<CoupledPair>, b: seq<CoupledPair>)
    requires Ranked(a) && Ranked(b) && forall x :: x in a <==> x in b
    ensures a == b
    decreases |a|
  {
    assert a != [] ==> a[0] in a;
    assert b != [] ==> b[0] in b;
    if a != [] && b != [] {
      assert a == [a[0]] + a[1..] && b == [b[0]] + b[1..];
      assert a[0] in b && b[0] in a;
      BeforeIsStrict(a[0], b[0]);
      assert a[0] == b[0];
      BeforeIsStrict(a[0], a[0]);
      assert a[0] !in a[1..] && b[0] !in b[1..];
      assert forall x :: x in a[1..] <==> x in a && x != a[0];
      assert forall x :: x in b[1..] <==> x in b && x != b[0];
      RankingIsUnique(a[1..], b[1..]);
    }
  }

  /** The thresholds only filter: order and records are those of the unfiltered report. */
  lemma ReportIsFilteredFullReport(commits: seq<seq<string>>, all: seq<CoupledPair>, some: seq<CoupledPair>)
    requires IsFullReport(commits, all) && IsReport(commits, some)
    ensures some == KeepAboveThresholds(all)
  {
    hide IsScore, Ranked, AboveThresholds;
    KeepHolds(all);
    KeepKeepsRanking(all);
    RankingIsUnique(some, KeepAboveThresholds(all));
  }

  lemma ProportionBounds(s: nat, total: nat, c: real)
    requires 0 < s <= total && c * total as real == s as real
    ensures 0.0 < c <= 1.0
    ensures c == 1.0 <==> s == total
  {
    Quotient(s, total, c);
  }

  /** Coupling is a proportion, and it is 1 exactly when neither file ever changes alone. */
  lemma CouplingIsAProportion(commits: seq<seq<string>>, x: CoupledPair)
    requires IsScore(commits, x)
    ensures x.sharedCommits <= x.revisionsA && x.sharedCommits <= x.revisionsB
    ensures x.revisionsA + x.revisionsB - x.sharedCommits >= 1
    ensures 0.0 < x.coupling <= 1.0
    ensures x.coupling == 1.0 <==> x.revisionsA == x.sharedCommits == x.revisionsB
  {
    SharedIsLeast(commits, Key(x));
    ProportionBounds(x.sharedCommits, x.revisionsA + x.revisionsB - x.sharedCommits, x.coupling);
  }
}
