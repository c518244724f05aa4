/** Backtesting checkers over transcripts, with a cache of finished transcripts. */
module Backtest {
  import opened Wrappers
  import opened TextOrder
  import opened Transcripts

  // A fingerprint of a transcript file: modification time and length.
  type Stamp(==)

  datatype Finding = Finding(line: nat, message: string)

  /** A checker is pure: its result depends on path and source only; None when it fails. */
  datatype Checker = Checker(applies: Path -> bool, run: (Path, string) -> Option<seq<Finding>>)

  /** `all` are the names run when none is given. Model checkers look at every file. */
  datatype Registry = Registry(all: seq<string>, plain: map<string, Checker>, models: map<string, Checker>)

  datatype Found = Found(path: Path, number: nat, checker: string, line: nat, message: string, preExisting: bool)

  datatype Tally = Tally(checked: nat, failed: nat, found: seq<Found>)

  datatype Entry = Entry(stamp: Stamp, checkersKey: string, tally: Tally)

  datatype Stats = Stats(scanned: nat, checked: nat, failed: nat)

  datatype Report = Report(findings: seq<(Path, Found)>, stats: Stats)

  /** The transcripts on disk: a stamp may be missing, and a file may be unreadable. */
  datatype Corpus = Corpus(stamps: map<Path, Stamp>, texts: map<Path, seq<Event>>)

  // ---------------------------------------------------------------------------
  // The key of a selection of checkers
  // ---------------------------------------------------------------------------

  function InsertName(x: string, s: seq<string>): (r: seq<string>)
    ensures multiset(r) == multiset([x]) + multiset(s)
  {
    if s == [] || !Less(s[0], x) then [x] + s
    else
      assert s == [s[0]] + s[1..];
      [s[0]] + InsertName(x, s[1..])
  }

  function Sorted(s: seq<string>): (r: seq<string>)
    ensures multiset(r) == multiset(s)
  {
    if s == [] then []
    else
      assert s == [s[0]] + s[1..];
      InsertName(s[0], Sorted(s[1..]))
  }

  function Join(names: seq<string>): string
  {
    if names == [] then ""
    else if |names| == 1 then names[0]
    else names[0] + "," + Join(names[1..])
  }

  function KeyOf(names: seq<string>): string
  {
    Join(Sorted(names))
  }

  /** A name that keys can tell apart. */
  predicate IsName(name: string)
  {
    name != "" && ',' !in name
  }

  function UpToComma(t: string): nat
  {
    if t == "" || t[0] == ',' then 0 else 1 + UpToComma(t[1..])
  }

  lemma {:induction false} UpToCommaSkips(x: string, w: string)
    requires ',' !in x
    ensures UpToComma(x + w) == |x| + UpToComma(w)
  {
    if x == "" {
      assert x + w == w;
    } else {
      assert (x + w)[1..] == x[1..] + w;
      UpToCommaSkips(x[1..], w);
    }
  }

  /** What follows the first name. */
  function AfterFirst(names: seq<string>): (r: string)
    requires names != []
    ensures Join(names) == names[0] + r && UpToComma(r) == 0
  {
    if |names| == 1 then "" else "," + Join(names[1..])
  }

  lemma {:induction false} JoinTellsApart(a: seq<string>, b: seq<string>)
    requires (forall n :: n in a ==> IsName(n)) && (forall n :: n in b ==> IsName(n))
    requires Join(a) == Join(b)
    ensures a == b
  {
    if a != [] && b != [] {
      assert IsName(a[0]) && IsName(b[0]);
      UpToCommaSkips(a[0], AfterFirst(a));
      UpToCommaSkips(b[0], AfterFirst(b));
      assert a[0] == Join(a)[..|a[0]|] == b[0];
      assert AfterFirst(a) == Join(a)[|a[0]|..] == AfterFirst(b);
      if |a| > 1 && |b| > 1 {
        assert AfterFirst(a)[1..] == Join(a[1..]) && AfterFirst(b)[1..] == Join(b[1..]);
        JoinTellsApart(a[1..], b[1..]);
      }
      assert a == [a[0]] + a[1..] && b == [b[0]] + b[1..];
    } else {
      assert a != [] ==> IsName(a[0]);
      assert b != [] ==> IsName(b[0]);
    }
  }

  /** Two selections with the same key hold the same checkers, each as often. */
  lemma KeyTellsSelectionsApart(a: seq<string>, b: seq<string>)
    requires (forall n :: n in a ==> IsName(n)) && (forall n :: n in b ==> IsName(n))
    requires KeyOf(a) == KeyOf(b)
    ensures multiset(a) == multiset(b)
  {
    forall n | n in Sorted(a) ensures IsName(n) {
      assert n in multiset(Sorted(a));
    }
    forall n | n in Sorted(b) ensures IsName(n) {
      assert n in multiset(Sorted(b));
    }
    JoinTellsApart(Sorted(a), Sorted(b));
  }

  ghost predicate InOrder(names: seq<string>)
  {
    forall i, j :: 0 <= i < j < |names| ==> !Less(names[j], names[i])
  }

  lemma {:induction false} InsertKeepsOrder(x: string, s: seq<string>)
    requires InOrder(s)
    ensures InOrder(InsertName(x, s))
  {
    if s != [] && Less(s[0], x) {
      var rest := InsertName(x, s[1..]);
      InsertKeepsOrder(x, s[1..]);
      forall n | n in rest ensures !Less(n, s[0]) {
        assert n in multiset(rest) && multiset(rest) == multiset([x]) + multiset(s[1..]);
        if n == x && Less(n, s[0]) {
          LessTrans(n, s[0], n);
          LessIrreflexive(n);
        }
      }
    } else if s != [] {
      forall j | 0 <= j < |s| ensures !Less(s[j], x) {
        if Less(s[j], x) {
          LessTotal(s[0], x);
          if j > 0 && s[0] != x {
            LessTrans(s[j], x, s[0]);
          }
        }
      }
    }
  }

  lemma {:induction false} SortedInOrder(s: seq<string>)
    ensures InOrder(Sorted(s))
  {
    if s != [] {
      SortedInOrder(s[1..]);
      InsertKeepsOrder(s[0], Sorted(s[1..]));
    }
  }

  lemma FirstsAgree(a: seq<string>, b: seq<string>)
    requires InOrder(a) && InOrder(b) && multiset(a) == multiset(b) && a != []
    ensures b != [] && a[0] == b[0]
  {
    hide Less;
    assert a[0] in multiset(b);
    assert b[0] in multiset(a);
    LessTotal(a[0], b[0]);
  }

  lemma RestsAgree(a: seq<string>, b: seq<string>)
    requires multiset(a) == multiset(b) && a != [] && b != [] && a[0] == b[0]
    ensures multiset(a[1..]) == multiset(b[1..])
  {
    assert a == [a[0]] + a[1..] && b == [b[0]] + b[1..];
    assert multiset(a[1..]) == multiset(a) - multiset{a[0]} && multiset(b[1..]) == multiset(b) - multiset{b[0]};
  }

  lemma {:induction false} OrderIsUnique(a: seq<string>, b: seq<string>)
    requires InOrder(a) && InOrder(b) && multiset(a) == multiset(b)
    ensures a == b
  {
    if a == [] {
      assert |multiset(b)| == 0;
    } else {
      FirstsAgree(a, b);
      RestsAgree(a, b);
      OrderIsUnique(a[1..], b[1..]);
      assert a == [a[0]] + a[1..] && b == [b[0]] + b[1..];
    }
  }

  /** Selections have the same key exactly when they hold the same checkers, each as often, in whatever order. */
  lemma SameKeyIff(a: seq<string>, b: seq<string>)
    requires (forall n :: n in a ==> IsName(n)) && (forall n :: n in b ==> IsName(n))
    ensures KeyOf(a) == KeyOf(b) <==> multiset(a) == multiset(b)
  {
    if KeyOf(a) == KeyOf(b) {
      KeyTellsSelectionsApart(a, b);
    }
    if multiset(a) == multiset(b) {
      SameKey(a, b);
    }
  }

  lemma SameKey(a: seq<string>, b: seq<string>)
    requires multiset(a) == multiset(b)
    ensures KeyOf(a) == KeyOf(b)
  {
    SortedInOrder(a);
    SortedInOrder(b);
    OrderIsUnique(Sorted(a), Sorted(b));
  }

  // ---------------------------------------------------------------------------
  // Running one checker on one snapshot
  // ---------------------------------------------------------------------------

  predicate HasMessage(findings: seq<Finding>, message: string)
  {
    exists i :: 0 <= i < |findings| && findings[i].message == message
  }

  /** A finding was there before when the content before the edit gives the same message. */
  function Marked(s: Snapshot, checker: string, after: seq<Finding>, before: seq<Finding>): seq<Found>
  {
    seq(|after|, i requires 0 <= i < |after| =>
      Found(s.path, s.number, checker, after[i].line, after[i].message, HasMessage(before, after[i].message)))
  }

  function Fire(c: Checker, name: string, s: Snapshot): Option<seq<Found>>
  {
    match c.run(s.path, s.after)
    case None => None
    case Some(after) =>
      match (if s.before == None then Some([]) else c.run(s.path, s.before.value))
      case None => None
      case Some(before) => Some(Marked(s, name, after, before))
  }

  predicate Registered(reg: Registry, name: string)
  {
    name in reg.plain || name in reg.models
  }

  predicate Applies(reg: Registry, name: string, path: Path)
    requires Registered(reg, name)
  {
    name in reg.plain ==> reg.plain[name].applies(path)
  }

  function CheckerOf(reg: Registry, name: string): Checker
    requires Registered(reg, name)
  {
    if name in reg.plain then reg.plain[name] else reg.models[name]
  }

  // ---------------------------------------------------------------------------
  // What a selection finds, whatever the order of its names
  // ---------------------------------------------------------------------------

  /** The selection's checkers that look at the snapshot all succeed. */
  ghost predicate Succeeds(reg: Registry, names: seq<string>, s: Snapshot)
  {
    forall n :: n in names && Registered(reg, n) && Applies(reg, n, s.path) ==> Fire(CheckerOf(reg, n), n, s).Some?
  }

  ghost function OneFinds(reg: Registry, name: string, s: Snapshot): multiset<Found>
  {
    if Registered(reg, name) && Applies(reg, name, s.path) && Fire(CheckerOf(reg, name), name, s).Some?
    then multiset(Fire(CheckerOf(reg, name), name, s).value) else multiset{}
  }

  ghost function OneRuns(reg: Registry, name: string, s: Snapshot): nat
  {
    if Registered(reg, name) && Applies(reg, name, s.path) then 1 else 0
  }

  ghost function Finds(reg: Registry, names: seq<string>, s: Snapshot): multiset<Found>
  {
    if names == [] then multiset{}
    else Finds(reg, names[..|names| - 1], s) + OneFinds(reg, names[|names| - 1], s)
  }

  ghost function Runs(reg: Registry, names: seq<string>, s: Snapshot): nat
  {
    if names == [] then 0
    else Runs(reg, names[..|names| - 1], s) + OneRuns(reg, names[|names| - 1], s)
  }

  ghost predicate AllSucceed(reg: Registry, names: seq<string>, snapshots: seq<Snapshot>)
  {
    forall k :: 0 <= k < |snapshots| ==> Succeeds(reg, names, snapshots[k])
  }

  ghost function AllFind(reg: Registry, names: seq<string>, snapshots: seq<Snapshot>): multiset<Found>
  {
    if snapshots == [] then multiset{}
    else AllFind(reg, names, snapshots[..|snapshots| - 1]) + Finds(reg, names, snapshots[|snapshots| - 1])
  }

  ghost function AllRun(reg: Registry, names: seq<string>, snapshots: seq<Snapshot>): nat
  {
    if snapshots == [] then 0
    else AllRun(reg, names, snapshots[..|snapshots| - 1]) + Runs(reg, names, snapshots[|snapshots| - 1])
  }

  /** `t` is what a fresh run over the transcript gives. */
  ghost predicate IsFresh(reg: Registry, names: seq<string>, events: seq<Event>, t: Tally)
  {
    var snapshots := Snapshots(events);
    && AllSucceed(reg, names, snapshots)
    && t.checked == AllRun(reg, names, snapshots)
    && t.failed == Failures(events)
    && multiset(t.found) == AllFind(reg, names, snapshots)
  }

  /** Each finding on the new content, marked when the old content, if known, gives its message too. */
  ghost predicate Marks(s: Snapshot, name: string, after: seq<Finding>, before: Option<seq<Finding>>, found: seq<Found>)
  {
    && |found| == |after|
    && forall i :: 0 <= i < |after| ==>
      && found[i] == Found(s.path, s.number, name, after[i].line, after[i].message, found[i].preExisting)
      && (found[i].preExisting
          <==> before.Some? && exists j :: 0 <= j < |before.value| && before.value[j].message == after[i].message)
  }

  /** The checker finds just these, on a snapshot it runs on. */
  ghost predicate FindsThese(reg: Registry, c: Checker, name: string, s: Snapshot, found: seq<Found>)
  {
    && OneFinds(reg, name, s) == multiset(found) && c.run(s.path, s.after).Some?
    && Marks(s, name, c.run(s.path, s.after).value,
             if s.before.Some? then c.run(s.path, s.before.value) else None, found)
  }

  /** What a registered checker looks at, when it fails, and what it finds. */
  lemma CheckerFinds(reg: Registry, name: string, s: Snapshot)
    requires name in reg.plain || name in reg.models
    ensures var c := if name in reg.plain then reg.plain[name] else reg.models[name];
            var looks := name in reg.plain ==> c.applies(s.path);
            var fails := c.run(s.path, s.after) == None || (s.before.Some? && c.run(s.path, s.before.value) == None);
            && OneRuns(reg, name, s) == (if looks then 1 else 0)
            && (Succeeds(reg, [name], s) <==> !(looks && fails))
            && (!looks ==> OneFinds(reg, name, s) == multiset{})
            && (looks && !fails ==> exists found :: FindsThese(reg, c, name, s, found))
  {
    var c := CheckerOf(reg, name);
    assert name in [name];
    if Applies(reg, name, s.path) && Fire(c, name, s).Some? {
      FiredIsMarked(c, name, s);
      assert FindsThese(reg, c, name, s, Fire(c, name, s).value);
    }
  }

  lemma FiredIsMarked(c: Checker, name: string, s: Snapshot)
    requires Fire(c, name, s).Some?
    ensures Marks(s, name, c.run(s.path, s.after).value,
                  if s.before.Some? then c.run(s.path, s.before.value) else None, Fire(c, name, s).value)
  {
    var after, found := c.run(s.path, s.after).value, Fire(c, name, s).value;
    var before := if s.before.Some? then c.run(s.path, s.before.value).value else [];
    assert found == Marked(s, name, after, before);
    assert forall i :: 0 <= i < |after| ==> found[i].preExisting == HasMessage(before, after[i].message);
  }

  lemma {:induction false} TakeOut(reg: Registry, names: seq<string>, k: nat, s: Snapshot)
    requires k < |names|
    ensures Finds(reg, names, s) == Finds(reg, names[..k] + names[k + 1..], s) + OneFinds(reg, names[k], s)
    ensures Runs(reg, names, s) == Runs(reg, names[..k] + names[k + 1..], s) + OneRuns(reg, names[k], s)
    decreases |names|
  {
    hide OneFinds, OneRuns;
    var n := |names| - 1;
    var rest := names[..k] + names[k + 1..];
    if k < n {
      TakeOut(reg, names[..n], k, s);
      assert rest[..|rest| - 1] == names[..n][..k] + names[..n][k + 1..];
      assert rest[|rest| - 1] == names[n];
    } else {
      assert rest == names[..n];
    }
  }

  lemma SameWithoutOne(a: seq<string>, x: string, b: seq<string>, c: seq<string>)
    requires multiset(a + [x]) == multiset(b + [x] + c)
    ensures multiset(a) == multiset(b + c)
  {
    assert multiset(a + [x]) == multiset(a) + multiset{x};
    assert multiset(b + [x] + c) == multiset(b + c) + multiset{x};
    assert multiset(a) == (multiset(a) + multiset{x}) - multiset{x};
  }

  lemma {:induction false} OrderDoesNotMatter(reg: Registry, a: seq<string>, b: seq<string>, s: Snapshot)
    requires multiset(a) == multiset(b)
    ensures Finds(reg, a, s) == Finds(reg, b, s) && Runs(reg, a, s) == Runs(reg, b, s)
    decreases |a|
  {
    hide OneFinds, OneRuns;
    if a == [] {
      assert |multiset(b)| == 0;
    } else {
      var n := |a| - 1;
      assert a == a[..n] + [a[n]];
      assert a[n] in multiset(b);
      var k: nat :| k < |b| && b[k] == a[n];
      var rest := b[..k] + b[k + 1..];
      assert b == b[..k] + [b[k]] + b[k + 1..];
      SameWithoutOne(a[..n], a[n], b[..k], b[k + 1..]);
      OrderDoesNotMatter(reg, a[..n], rest, s);
      TakeOut(reg, b, k, s);
    }
  }

  lemma SameNames(reg: Registry, a: seq<string>, b: seq<string>, s: Snapshot)
    requires multiset(a) == multiset(b)
    ensures Succeeds(reg, a, s) <==> Succeeds(reg, b, s)
  {
    forall n ensures n in a <==> n in b {
      assert n in a <==> n in multiset(a);
      assert n in b <==> n in multiset(b);
    }
  }

  lemma {:induction false} OrderNeverMatters(reg: Registry, a: seq<string>, b: seq<string>, snapshots: seq<Snapshot>)
    requires multiset(a) == multiset(b)
    ensures AllFind(reg, a, snapshots) == AllFind(reg, b, snapshots)
    ensures AllRun(reg, a, snapshots) == AllRun(reg, b, snapshots)
    ensures AllSucceed(reg, a, snapshots) <==> AllSucceed(reg, b, snapshots)
  {
    hide Succeeds;
    if snapshots != [] {
      OrderNeverMatters(reg, a, b, snapshots[..|snapshots| - 1]);
      OrderDoesNotMatter(reg, a, b, snapshots[|snapshots| - 1]);
    }
    forall k | 0 <= k < |snapshots| ensures Succeeds(reg, a, snapshots[k]) <==> Succeeds(reg, b, snapshots[k]) {
      SameNames(reg, a, b, snapshots[k]);
    }
  }

  /** A fresh result under one key serves every selection with that key. */
  lemma FreshForKey(reg: Registry, a: seq<string>, b: seq<string>, events: seq<Event>, t: Tally)
    requires (forall n :: n in a ==> IsName(n)) && (forall n :: n in b ==> IsName(n))
    requires KeyOf(a) == KeyOf(b) && IsFresh(reg, a, events, t)
    ensures IsFresh(reg, b, events, t)
  {
    hide AllSucceed, AllRun, AllFind, Snapshots;
    KeyTellsSelectionsApart(a, b);
    OrderNeverMatters(reg, a, b, Snapshots(events));
  }

  // ---------------------------------------------------------------------------
  // Checking one transcript
  // ---------------------------------------------------------------------------

  lemma {:induction false} FindsAppend(reg: Registry, a: seq<string>, b: seq<string>, s: Snapshot)
    ensures Finds(reg, a + b, s) == Finds(reg, a, s) + Finds(reg, b, s)
    ensures Runs(reg, a + b, s) == Runs(reg, a, s) + Runs(reg, b, s)
    decreases |b|
  {
    hide OneFinds, OneRuns;
    if b == [] {
      assert a + b == a;
    } else {
      FindsAppend(reg, a, b[..|b| - 1], s);
      assert (a + b)[..|a + b| - 1] == a + b[..|b| - 1];
    }
  }

  function Matching(reg: Registry, names: seq<string>, path: Path): (r: seq<string>)
    requires forall n :: n in names ==> Registered(reg, n)
    ensures forall n :: n in r <==> n in names && Applies(reg, n, path)
  {
    if names == [] then []
    else
      assert names == names[..|names| - 1] + [names[|names| - 1]];
      Matching(reg, names[..|names| - 1], path)
      + if Applies(reg, names[|names| - 1], path) then [names[|names| - 1]] else []
  }

  lemma FindsLast(reg: Registry, names: seq<string>, last: string, s: Snapshot)
    ensures Finds(reg, names + [last], s) == Finds(reg, names, s) + OneFinds(reg, last, s)
    ensures Runs(reg, names + [last], s) == Runs(reg, names, s) + OneRuns(reg, last, s)
  {
    hide OneFinds, OneRuns;
    assert (names + [last])[..|names|] == names;
  }

  lemma OtherFindsNothing(reg: Registry, name: string, s: Snapshot)
    requires Registered(reg, name) && !Applies(reg, name, s.path)
    ensures OneFinds(reg, name, s) == multiset{} && OneRuns(reg, name, s) == 0
  {
  }

  lemma {:induction false} OthersFindNothing(reg: Registry, names: seq<string>, s: Snapshot)
    requires forall n :: n in names ==> Registered(reg, n)
    ensures Finds(reg, Matching(reg, names, s.path), s) == Finds(reg, names, s)
    ensures Runs(reg, Matching(reg, names, s.path), s) == Runs(reg, names, s)
  {
    hide Finds, Runs, OneFinds, OneRuns, Applies, Registered;
    if names != [] {
      var last := names[|names| - 1];
      var m := Matching(reg, names[..|names| - 1], s.path);
      OthersFindNothing(reg, names[..|names| - 1], s);
      assert names == names[..|names| - 1] + [last];
      FindsLast(reg, names[..|names| - 1], last, s);
      FindsLast(reg, m, last, s);
      if !Applies(reg, last, s.path) {
        OtherFindsNothing(reg, last, s);
        assert Matching(reg, names, s.path) == m;
      }
    }
  }

  method FireAll(reg: Registry, names: seq<string>, s: Snapshot) returns (r: Option<seq<Found>>)
    requires forall n :: n in names ==> Registered(reg, n) && Applies(reg, n, s.path)
    ensures r.Some? <==> Succeeds(reg, names, s)
    ensures r.Some? ==> multiset(r.value) == Finds(reg, names, s) && |names| == Runs(reg, names, s)
  {
    hide Fire;
    var found: seq<Found> := [];
    for i := 0 to |names|
      invariant Succeeds(reg, names[..i], s)
      invariant multiset(found) == Finds(reg, names[..i], s) && i == Runs(reg, names[..i], s)
    {
      var one := Fire(CheckerOf(reg, names[i]), names[i], s);
      if one == None {
        return None;
      }
      found := found + one.value;
      assert names[..i + 1][..i] == names[..i];
    }
    assert names[..|names|] == names;
    return Some(found);
  }

  /** How many checkers ran on the snapshot, and what they found. */
  method CheckSnapshot(reg: Registry, checkers: seq<string>, models: seq<string>, s: Snapshot)
    returns (r: Option<(nat, seq<Found>)>)
    requires (forall n :: n in checkers ==> n in reg.plain)
             && (forall n :: n in models ==> n in reg.models && n !in reg.plain)
    ensures r.Some? <==> Succeeds(reg, checkers + models, s)
    ensures r.Some?
            ==> r.value.0 == Runs(reg, checkers + models, s) && multiset(r.value.1) == Finds(reg, checkers + models, s)
  {
    hide Fire, Finds, Runs;
    var matching := Matching(reg, checkers, s.path);
    OthersFindNothing(reg, checkers, s);
    FindsAppend(reg, checkers, models, s);
    if matching == [] && models == [] {
      NobodyFinds(reg, s);
      return Some((0, []));
    }
    var plainFound := FireAll(reg, matching, s);
    if plainFound == None {
      return None;
    }
    var modelFound := FireAll(reg, models, s);
    if modelFound == None {
      return None;
    }
    return Some((|matching| + |models|, plainFound.value + modelFound.value));
  }

  lemma NobodyFinds(reg: Registry, s: Snapshot)
    ensures Finds(reg, [], s) == multiset{} && Runs(reg, [], s) == 0
  {
  }

  method CheckSnapshots(reg: Registry, checkers: seq<string>, models: seq<string>, snapshots: seq<Snapshot>)
    returns (r: Option<(nat, seq<Found>)>)
    requires (forall n :: n in checkers ==> n in reg.plain)
             && (forall n :: n in models ==> n in reg.models && n !in reg.plain)
    ensures r.Some? <==> AllSucceed(reg, checkers + models, snapshots)
    ensures r.Some? ==> r.value.0 == AllRun(reg, checkers + models, snapshots)
    ensures r.Some? ==> multiset(r.value.1) == AllFind(reg, checkers + models, snapshots)
  {
    hide Succeeds, Finds, Runs;
    var checked, found := 0, [];
    for i := 0 to |snapshots|
      invariant AllSucceed(reg, checkers + models, snapshots[..i])
      invariant checked == AllRun(reg, checkers + models, snapshots[..i])
      invariant multiset(found) == AllFind(reg, checkers + models, snapshots[..i])
    {
      var one := CheckSnapshot(reg, checkers, models, snapshots[i]);
      if one == None {
        return None;
      }
      checked, found := checked + one.value.0, found + one.value.1;
      assert snapshots[..i + 1][..i] == snapshots[..i];
    }
    assert snapshots[..|snapshots|] == snapshots;
    return Some((checked, found));
  }

  // ---------------------------------------------------------------------------
  // The report a run must give
  // ---------------------------------------------------------------------------

  function Reported(t: Path, found: seq<Found>, onlyNew: bool): seq<(Path, Found)>
  {
    if found == [] then []
    else
      var f := found[|found| - 1];
      Reported(t, found[..|found| - 1], onlyNew) + if onlyNew && f.preExisting then [] else [(t, f)]
  }

  lemma {:induction false} ReportedCounts(t: Path, found: seq<Found>, onlyNew: bool, x: (Path, Found))
    ensures multiset(Reported(t, found, onlyNew))[x]
         == if x.0 == t && !(onlyNew && x.1.preExisting) then multiset(found)[x.1] else 0
  {
    if found != [] {
      ReportedCounts(t, found[..|found| - 1], onlyNew, x);
      assert found == found[..|found| - 1] + [found[|found| - 1]];
    }
  }

  /** Every transcript is readable and no checker fails on it. */
  ghost predicate CanReport(reg: Registry, corpus: Corpus, names: seq<string>, transcripts: seq<Path>)
  {
    forall i :: 0 <= i < |transcripts| ==>
      transcripts[i] in corpus.texts && AllSucceed(reg, names, Snapshots(corpus.texts[transcripts[i]]))
  }

  ghost function TextOf(corpus: Corpus, t: Path): seq<Event>
  {
    if t in corpus.texts then corpus.texts[t] else []
  }

  ghost function ExpectedChecked(reg: Registry, corpus: Corpus, names: seq<string>, transcripts: seq<Path>): nat
  {
    if transcripts == [] then 0
    else
      var n := |transcripts| - 1;
      ExpectedChecked(reg, corpus, names, transcripts[..n])
          + AllRun(reg, names, Snapshots(TextOf(corpus, transcripts[n])))
  }

  ghost function ExpectedFailed(corpus: Corpus, transcripts: seq<Path>): nat
  {
    if transcripts == [] then 0
    else
      var n := |transcripts| - 1;
      ExpectedFailed(corpus, transcripts[..n]) + Failures(TextOf(corpus, transcripts[n]))
  }

  /** How often the finding must be reported. */
  ghost function ExpectedCount(reg: Registry, corpus: Corpus, names: seq<string>, onlyNew: bool, transcripts: seq<Path>,
                               x: (Path, Found)): nat
  {
    if transcripts == [] then 0
    else
      var n := |transcripts| - 1;
      ExpectedCount(reg, corpus, names, onlyNew, transcripts[..n], x)
      + if x.0 == transcripts[n] && !(onlyNew && x.1.preExisting)
        then AllFind(reg, names, Snapshots(TextOf(corpus, transcripts[n])))[x.1] else 0
  }

  ghost predicate IsReport(reg: Registry, corpus: Corpus, names: seq<string>, onlyNew: bool, transcripts: seq<Path>,
                           r: Report)
  {
    && r.stats == Stats(|transcripts|, ExpectedChecked(reg, corpus, names, transcripts),
                        ExpectedFailed(corpus, transcripts))
    && forall x :: multiset(r.findings)[x] == ExpectedCount(reg, corpus, names, onlyNew, transcripts, x)
  }

  lemma ReportNothing(reg: Registry, corpus: Corpus, names: seq<string>, onlyNew: bool)
    ensures IsReport(reg, corpus, names, onlyNew, [], Report([], Stats(0, 0, 0)))
  {
  }

  /** The report after one more transcript with tally `t`. */
  function AddTally(r: Report, transcript: Path, t: Tally, onlyNew: bool): Report
  {
    Report(r.findings + Reported(transcript, t.found, onlyNew),
           Stats(r.stats.scanned + 1, r.stats.checked + t.checked, r.stats.failed + t.failed))
  }

  lemma ReportGrows(reg: Registry, corpus: Corpus, names: seq<string>, onlyNew: bool, transcripts: seq<Path>, r: Report,
                    t: Tally)
    requires transcripts != [] && IsReport(reg, corpus, names, onlyNew, transcripts[..|transcripts| - 1], r)
    requires IsFresh(reg, names, TextOf(corpus, transcripts[|transcripts| - 1]), t)
    ensures IsReport(reg, corpus, names, onlyNew, transcripts, AddTally(r, transcripts[|transcripts| - 1], t, onlyNew))
  {
    hide AllSucceed, AllRun, AllFind, Snapshots, Reported, TextOf;
    var last := transcripts[|transcripts| - 1];
    var r' := AddTally(r, last, t, onlyNew);
    forall x ensures multiset(r'.findings)[x] == ExpectedCount(reg, corpus, names, onlyNew, transcripts, x) {
      ReportedCounts(last, t.found, onlyNew, x);
    }
  }

  /** Any two reports of the same run have the same statistics and the same findings, each as often. */
  lemma ReportsAgree(reg: Registry, corpus: Corpus, names: seq<string>, onlyNew: bool, transcripts: seq<Path>,
                     a: Report, b: Report)
    requires IsReport(reg, corpus, names, onlyNew, transcripts, a)
             && IsReport(reg, corpus, names, onlyNew, transcripts, b)
    ensures a.stats == b.stats && multiset(a.findings) == multiset(b.findings)
  {
    forall x ensures multiset(a.findings)[x] == multiset(b.findings)[x] {
      assert multiset(a.findings)[x] == ExpectedCount(reg, corpus, names, onlyNew, transcripts, x);
    }
  }

  // ---------------------------------------------------------------------------
  // The cache
  // ---------------------------------------------------------------------------

  /** Every text a stamped transcript has ever had. */
  type Versions = map<(Path, Stamp), seq<Event>>

  ghost predicate WellFormed(reg: Registry)
  {
    && (forall n :: n in reg.plain.Keys + reg.models.Keys ==> IsName(n))
    && (forall n :: n in reg.all ==> n in reg.plain)
  }

  /** A stamped transcript is readable, and its stamp identifies its text. */
  ghost predicate FitsVersions(corpus: Corpus, versions: Versions)
  {
    forall p :: p in corpus.stamps ==>
      p in corpus.texts && (p, corpus.stamps[p]) in versions && versions[(p, corpus.stamps[p])] == corpus.texts[p]
  }

  ghost predicate GoodEntry(reg: Registry, versions: Versions, path: Path, e: Entry)
  {
    && (path, e.stamp) in versions
    && forall names :: (forall n :: n in names ==> Registered(reg, n)) && KeyOf(names) == e.checkersKey ==>
         IsFresh(reg, names, versions[(path, e.stamp)], e.tally)
  }

  lemma StoredIsGood(reg: Registry, versions: Versions, path: Path, names: seq<string>, e: Entry)
    requires WellFormed(reg) && (path, e.stamp) in versions
    requires (forall n :: n in names ==> Registered(reg, n)) && e.checkersKey == KeyOf(names)
    requires IsFresh(reg, names, versions[(path, e.stamp)], e.tally)
    ensures GoodEntry(reg, versions, path, e)
  {
    hide IsFresh, KeyOf;
    forall other: seq<string> | (forall n :: n in other ==> Registered(reg, n)) && KeyOf(other) == e.checkersKey
      ensures IsFresh(reg, other, versions[(path, e.stamp)], e.tally)
    {
      FreshForKey(reg, names, other, versions[(path, e.stamp)], e.tally);
    }
  }

  /** New versions of transcripts do not spoil the cache. */
  lemma VersionsMayGrow(reg: Registry, versions: Versions, more: Versions, path: Path, e: Entry)
    requires GoodEntry(reg, versions, path, e)
    requires forall v :: v in versions ==> v in more && more[v] == versions[v]
    ensures GoodEntry(reg, more, path, e)
  {
    hide IsFresh;
  }

  /** The plain checkers first, then the model checkers. */
  function Chosen(reg: Registry, requested: seq<string>): (seq<string>, seq<string>)
  {
    if requested == [] then (reg.all, []) else (Plain(reg, requested), Models(reg, requested))
  }

  function Plain(reg: Registry, names: seq<string>): (r: seq<string>)
    ensures forall n :: n in r ==> n in reg.plain
  {
    if names == [] then []
    else (if names[0] in reg.plain then [names[0]] else []) + Plain(reg, names[1..])
  }

  function Models(reg: Registry, names: seq<string>): (r: seq<string>)
    ensures forall n :: n in r ==> n in reg.models && n !in reg.plain
  {
    if names == [] then []
    else (if names[0] in reg.models && names[0] !in reg.plain then [names[0]] else []) + Models(reg, names[1..])
  }

  /** The checkers a run is about: those asked for, or all plain ones. */
  function Requested(reg: Registry, requested: seq<string>): seq<string>
  {
    if requested == [] then reg.all else requested
  }

  lemma Either(plain: seq<string>, models: seq<string>, name: string, rest: seq<string>)
    requires multiset(plain + models) == multiset(rest)
    ensures multiset([name] + plain + models) == multiset([name] + rest)
    ensures multiset(plain + ([name] + models)) == multiset([name] + rest)
  {
    assert multiset([name] + plain + models) == multiset{name} + multiset(plain) + multiset(models);
    assert multiset(plain + ([name] + models)) == multiset{name} + multiset(plain) + multiset(models);
  }

  lemma FirstOfEither(reg: Registry, names: seq<string>, plain: seq<string>, models: seq<string>)
    requires names != [] && Registered(reg, names[0])
    requires plain == Plain(reg, names[1..]) && models == Models(reg, names[1..])
    ensures Plain(reg, names) + Models(reg, names)
            == if names[0] in reg.plain then [names[0]] + plain + models else plain + ([names[0]] + models)
  {
  }

  lemma {:induction false} PlainAndModels(reg: Registry, names: seq<string>)
    requires forall n :: n in names ==> Registered(reg, n)
    ensures multiset(Plain(reg, names) + Models(reg, names)) == multiset(names)
  {
    if names != [] {
      assert names[0] in names && forall n :: n in names[1..] ==> n in names;
      assert [names[0]] + names[1..] == names;
      hide *;
      var plain, models := Plain(reg, names[1..]), Models(reg, names[1..]);
      PlainAndModels(reg, names[1..]);
      FirstOfEither(reg, names, plain, models);
      Either(plain, models, names[0], names[1..]);
    }
  }

  /** No checker asked for is left out, and none is added. */
  lemma ChosenAreRequested(reg: Registry, requested: seq<string>)
    requires forall n :: n in requested ==> n in reg.plain || n in reg.models
    ensures multiset(Chosen(reg, requested).0 + Chosen(reg, requested).1) == multiset(Requested(reg, requested))
  {
    if requested == [] {
      assert reg.all + [] == reg.all;
    } else {
      PlainAndModels(reg, requested);
    }
  }

  lemma SameReport(reg: Registry, corpus: Corpus, a: seq<string>, b: seq<string>, transcripts: seq<Path>)
    requires multiset(a) == multiset(b)
    ensures CanReport(reg, corpus, a, transcripts) <==> CanReport(reg, corpus, b, transcripts)
    ensures ExpectedChecked(reg, corpus, a, transcripts) == ExpectedChecked(reg, corpus, b, transcripts)
    ensures forall onlyNew, x :: ExpectedCount(reg, corpus, a, onlyNew, transcripts, x)
                                 == ExpectedCount(reg, corpus, b, onlyNew, transcripts, x)
  {
    hide AllSucceed, AllRun, AllFind, Snapshots;
    forall i | 0 <= i < |transcripts| && transcripts[i] in corpus.texts
      ensures AllSucceed(reg, a, Snapshots(corpus.texts[transcripts[i]]))
              <==> AllSucceed(reg, b, Snapshots(corpus.texts[transcripts[i]]))
    {
      OrderNeverMatters(reg, a, b, Snapshots(corpus.texts[transcripts[i]]));
    }
    SameCounts(reg, corpus, a, b, transcripts);
  }

  lemma {:induction false} SameCounts(reg: Registry, corpus: Corpus, a: seq<string>, b: seq<string>,
                                      transcripts: seq<Path>)
    requires multiset(a) == multiset(b)
    ensures ExpectedChecked(reg, corpus, a, transcripts) == ExpectedChecked(reg, corpus, b, transcripts)
    ensures forall onlyNew, x :: ExpectedCount(reg, corpus, a, onlyNew, transcripts, x)
                                 == ExpectedCount(reg, corpus, b, onlyNew, transcripts, x)
  {
    hide AllSucceed, AllRun, AllFind, Snapshots, TextOf;
    if transcripts != [] {
      var n := |transcripts| - 1;
      SameCounts(reg, corpus, a, b, transcripts[..n]);
      OrderNeverMatters(reg, a, b, Snapshots(TextOf(corpus, transcripts[n])));
    }
  }

  lemma SameIsReport(reg: Registry, corpus: Corpus, a: seq<string>, b: seq<string>, transcripts: seq<Path>)
    requires multiset(a) == multiset(b)
    ensures forall onlyNew, r :: IsReport(reg, corpus, a, onlyNew, transcripts, r)
                                 <==> IsReport(reg, corpus, b, onlyNew, transcripts, r)
  {
    hide ExpectedChecked, ExpectedCount;
    SameReport(reg, corpus, a, b, transcripts);
  }

  /** The cache has a result for this transcript as it is on disk, for checkers with this key. */
  predicate Serves(entries: map<Path, Entry>, corpus: Corpus, t: Path, key: string)
  {
    t in corpus.stamps && t in entries && entries[t].stamp == corpus.stamps[t] && entries[t].checkersKey == key
  }

  /** It has every stamped one of these. */
  ghost predicate Served(entries: map<Path, Entry>, corpus: Corpus, transcripts: seq<Path>, key: string)
  {
    forall t :: t in transcripts && t in corpus.stamps ==> Serves(entries, corpus, t, key)
  }

  /** Only entries of these transcripts differ. */
  ghost predicate Untouched(entries: map<Path, Entry>, before: map<Path, Entry>, transcripts: seq<Path>)
  {
    && (forall t :: t !in transcripts ==> (t in entries <==> t in before))
    && (forall t :: t !in transcripts && t in entries ==> entries[t] == before[t])
  }

  lemma NothingServed(entries: map<Path, Entry>, corpus: Corpus, key: string)
    ensures Served(entries, corpus, [], key) && Untouched(entries, entries, [])
  {
  }

  lemma ServedMore(entries: map<Path, Entry>, before: map<Path, Entry>, corpus: Corpus, transcripts: seq<Path>, t: Path,
                   key: string, tally: Tally)
    requires Served(before, corpus, transcripts, key)
    requires entries == if Serves(before, corpus, t, key) || t !in corpus.stamps then before
                        else before[t := Entry(corpus.stamps[t], key, tally)]
    ensures Served(entries, corpus, transcripts + [t], key)
  {
  }

  lemma UntouchedMore(entries: map<Path, Entry>, before: map<Path, Entry>, first: map<Path, Entry>,
                      transcripts: seq<Path>, i: nat)
    requires i < |transcripts| && Untouched(before, first, transcripts[..i])
    requires entries == before
             || (transcripts[i] in entries && entries == before[transcripts[i] := entries[transcripts[i]]])
    ensures Untouched(entries, first, transcripts[..i + 1]) && Untouched(entries, first, transcripts)
  {
    assert transcripts[..i + 1] == transcripts[..i] + [transcripts[i]];
    assert forall t :: t in transcripts[..i + 1] ==> t in transcripts;
  }

  lemma ServedMeans(entries: map<Path, Entry>, before: map<Path, Entry>, corpus: Corpus, transcripts: seq<Path>,
                    key: string)
    ensures Served(entries, corpus, transcripts, key)
            ==> forall t :: t in transcripts && t in corpus.stamps ==> Serves(entries, corpus, t, key)
    ensures Untouched(entries, before, transcripts)
            ==> (forall t :: t !in transcripts ==> (t in entries <==> t in before))
                && forall t :: t !in transcripts && t in entries ==> entries[t] == before[t]
  {
  }

  class BacktestCache {
    var entries: map<Path, Entry>

    ghost predicate Valid(reg: Registry, versions: Versions)
      reads this
    {
      forall p :: p in entries ==> GoodEntry(reg, versions, p, entries[p])
    }

    constructor ()
      ensures entries == map[]
    {
      entries := map[];
    }

    /**
     * Whatever valid entries the cache holds, the report is the one a fresh run of the requested checkers gives, for
     * either `onlyNew`; None when a name is unknown, a transcript is unreadable or a checker fails. Afterwards the
     * cache has every stamped transcript of the run.
     */
    method Run(reg: Registry, corpus: Corpus, transcripts: seq<Path>, requested: seq<string>, onlyNew: bool,
               ghost versions: Versions)
      returns (r: Option<Report>)
      requires WellFormed(reg) && FitsVersions(corpus, versions) && Valid(reg, versions)
      modifies this
      ensures Valid(reg, versions)
      ensures r.Some? <==>
        && (forall n :: n in requested ==> n in reg.plain || n in reg.models)
        && CanReport(reg, corpus, Requested(reg, requested), transcripts)
      ensures r.Some? ==> IsReport(reg, corpus, Requested(reg, requested), onlyNew, transcripts, r.value)
      ensures r.Some? ==> forall t :: t in transcripts && t in corpus.stamps ==>
        Serves(entries, corpus, t, KeyOf(Requested(reg, requested)))
      ensures forall t :: t !in transcripts ==> (t in entries <==> t in old(entries))
      ensures forall t :: t !in transcripts && t in entries ==> entries[t] == old(entries)[t]
    {
      hide *;
      if exists n :: n in requested && !(n in reg.plain || n in reg.models) {
        return None;
      }
      var (checkers, models) := Chosen(reg, requested);
      ghost var names := checkers + models;
      ChosenAreKnown(reg, requested);
      ChosenAreRequested(reg, requested);
      SameKey(names, Requested(reg, requested));
      SameReport(reg, corpus, names, Requested(reg, requested), transcripts);
      SameIsReport(reg, corpus, names, Requested(reg, requested), transcripts);
      r := RunChosen(reg, corpus, transcripts, checkers, models, KeyOf(checkers + models), onlyNew, versions);
      ServedMeans(entries, old(entries), corpus, transcripts, KeyOf(names));
    }

    /** The loop over the transcripts. */
    method RunChosen(reg: Registry, corpus: Corpus, transcripts: seq<Path>, checkers: seq<string>, models: seq<string>,
                     key: string, onlyNew: bool, ghost versions: Versions)
      returns (r: Option<Report>)
      requires WellFormed(reg) && FitsVersions(corpus, versions) && Valid(reg, versions)
      requires (forall n :: n in checkers ==> n in reg.plain)
               && (forall n :: n in models ==> n in reg.models && n !in reg.plain)
      requires key == KeyOf(checkers + models)
      modifies this
      ensures Valid(reg, versions)
      ensures r.Some? <==> CanReport(reg, corpus, checkers + models, transcripts)
      ensures r.Some? ==> IsReport(reg, corpus, checkers + models, onlyNew, transcripts, r.value)
      ensures Untouched(entries, old(entries), transcripts)
      ensures r.Some? ==> Served(entries, corpus, transcripts, key)
    {
      hide IsReport, AllSucceed, GoodEntry, IsFresh, KeyOf, AddTally, FitsVersions, Served, Untouched, Serves;
      ghost var names := checkers + models;
      var report := Report([], Stats(0, 0, 0));
      ReportNothing(reg, corpus, names, onlyNew);
      NothingServed(entries, corpus, key);
      for i := 0 to |transcripts|
        invariant Valid(reg, versions)
        invariant Served(entries, corpus, transcripts[..i], key) && Untouched(entries, old(entries), transcripts[..i])
        invariant CanReport(reg, corpus, names, transcripts[..i])
        invariant IsReport(reg, corpus, names, onlyNew, transcripts[..i], report)
      {
        var t := transcripts[i];
        ghost var before := entries;
        var tally := TallyOf(reg, corpus, t, checkers, models, key, versions);
        assert transcripts[..i + 1][..i] == transcripts[..i];
        UntouchedMore(entries, before, old(entries), transcripts, i);
        if tally == None {
          return None;
        }
        ServedMore(entries, before, corpus, transcripts[..i], t, key, tally.value);
        assert transcripts[..i + 1] == transcripts[..i] + [t];
        ReportGrows(reg, corpus, names, onlyNew, transcripts[..i + 1], report, tally.value);
        report := AddTally(report, t, tally.value, onlyNew);
      }
      assert transcripts[..|transcripts|] == transcripts;
      return Some(report);
    }

    /** One transcript, from the cache if an entry with its stamp and key is there, else checked and stored. */
    method TallyOf(reg: Registry, corpus: Corpus, t: Path, checkers: seq<string>, models: seq<string>, key: string,
                   ghost versions: Versions)
      returns (r: Option<Tally>)
      requires WellFormed(reg) && FitsVersions(corpus, versions) && Valid(reg, versions)
      requires (forall n :: n in checkers ==> n in reg.plain)
               && (forall n :: n in models ==> n in reg.models && n !in reg.plain)
      requires key == KeyOf(checkers + models)
      modifies this
      ensures Valid(reg, versions)
      ensures r.Some? <==> t in corpus.texts && AllSucceed(reg, checkers + models, Snapshots(corpus.texts[t]))
      ensures r.Some? ==> IsFresh(reg, checkers + models, TextOf(corpus, t), r.value)
      ensures Serves(old(entries), corpus, t, key) ==> r == Some(old(entries)[t].tally) && entries == old(entries)
      ensures !Serves(old(entries), corpus, t, key) ==>
        entries == if r.Some? && t in corpus.stamps then old(entries)[t := Entry(corpus.stamps[t], key, r.value)]
                   else old(entries)
    {
      hide IsReplay, AllSucceed, AllRun, AllFind, KeyOf, IsName, GoodEntry;
      ghost var names := checkers + models;
      if t in corpus.stamps && t in entries && entries[t].stamp == corpus.stamps[t] && entries[t].checkersKey == key {
        HitIsFresh(reg, versions, t, names, entries[t]);
        return Some(entries[t].tally);
      }
      if t !in corpus.texts {
        return None;
      }
      var snapshots, failed := ReconstructSnapshots(corpus.texts[t]);
      ReplayIsUnique(corpus.texts[t], snapshots, Snapshots(corpus.texts[t]));
      var checked := CheckSnapshots(reg, checkers, models, snapshots);
      if checked == None {
        return None;
      }
      var tally := Tally(checked.value.0, failed, checked.value.1);
      if t in corpus.stamps {
        var e := Entry(corpus.stamps[t], key, tally);
        StoredIsGood(reg, versions, t, names, e);
        entries := entries[t := e];
      }
      return Some(tally);
    }
  }

  lemma HitIsFresh(reg: Registry, versions: Versions, t: Path, names: seq<string>, e: Entry)
    requires GoodEntry(reg, versions, t, e) && KeyOf(names) == e.checkersKey
    requires forall n :: n in names ==> Registered(reg, n)
    ensures (t, e.stamp) in versions && IsFresh(reg, names, versions[(t, e.stamp)], e.tally)
  {
    hide IsFresh, KeyOf;
  }

  lemma ChosenAreKnown(reg: Registry, requested: seq<string>)
    requires WellFormed(reg)
    ensures forall n :: n in Chosen(reg, requested).0 ==> n in reg.plain
    ensures forall n :: n in Chosen(reg, requested).1 ==> n in reg.models && n !in reg.plain
  {
  }
}
