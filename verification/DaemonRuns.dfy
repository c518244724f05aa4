/** Every interleaving of check requests to the daemon with file edits. */
module DaemonRuns {
  import opened Basics
  import opened Wrappers
  import opened FileHistory
  import opened Grace
  import opened ResultCache

  /** A content some part of a run saw: 0 the file, 1 the config, 2 the registry. `at` records when. */
  datatype Seen = Seen(which: nat, content: Option<Content>, at: nat)

  /** What the results of a run depend on. */
  type Inputs = seq<(nat, Option<Content>)>

  function InputsOf(seen: seq<Seen>): Inputs
  {
    seq(|seen|, i requires 0 <= i < |seen| => (seen[i].which, seen[i].content))
  }

  /** How an entry came about; the daemon never looks at this. */
  datatype Origin = Origin(scoped: bool, beforeAt: seq<nat>, recheckedAt: seq<nat>, seen: seq<Seen>)

  datatype Phase =
    | Capturing
    | Ready
    | Getting(found: seq<Option<Stamp>>, foundAt: seq<nat>)
    | Running
    | Putting(results: seq<CheckResult>, rechecked: seq<Option<Stamp>>, recheckedAt: seq<nat>, lockedAt: nat)
    | Hit(cached: seq<CheckResult>, origin: Origin, stamps: seq<Option<Stamp>>, stampsAt: seq<nat>)
    | Ran(reported: seq<CheckResult>)
    | Failed

  datatype Request = Request(file: Path, trigger: string, scoped: bool,
                             before: seq<Option<Stamp>>, beforeAt: seq<nat>, seen: seq<Seen>, phase: Phase)

  /** The config path is fixed by the file, and the checks are a function of what they read. */
  datatype Setup = Setup(configOf: Path -> Path, registry: Path, run: (Inputs, Path, string, bool) -> seq<CheckResult>)

  datatype State = State(history: seq<Disk>, entries: Entries, origins: map<Path, Origin>, pending: Pending,
                         lock: Option<nat>, requests: map<nat, Request>) {
    ghost predicate Started() { |history| > 0 }
    function Now(): nat requires |history| > 0 { |history| - 1 }
    function Disk(): Disk requires |history| > 0 { history[|history| - 1] }
  }

  function Watched(c: Setup, file: Path): (w: seq<Path>)
    ensures |w| == 3
  {
    [file, c.configOf(file), c.registry]
  }

  function AsStamps(c: Setup, file: Path, s: seq<Option<Stamp>>): Stamps
    requires |s| == 3
  {
    Stamps(file, c.configOf(file), c.registry, s[0], s[1], s[2])
  }

  datatype Step =
    | Write(path: Path, version: Version)
    | Delete(path: Path)
    | Arrive(id: nat, file: Path, trigger: string, scoped: bool)
    | Capture(id: nat)
    | See(id: nat, which: nat)
    | LockToGet(id: nat)
    | FindStamp(id: nat)
    | Reply(id: nat)
    | SkipGet(id: nat)
    | LockToPut(id: nat)
    | Recheck(id: nat)
    | Finish(id: nat)
    | Fail(id: nat)

  /** `put` compares all stamps afresh, unless the file was missing before the run. */
  predicate NeedsRecheck(r: Request)
    requires |r.before| == 3
  {
    !r.scoped && r.before[0].Some?
  }

  /** The config is read once, before the lookup; the registry there and again for the run; the file by the run. */
  predicate Sees(phase: Phase, which: nat)
  {
    match which
    case 0 => phase.Running?
    case 1 => phase.Ready?
    case _ => phase.Ready? || phase.Running?
  }

  ghost predicate Enabled(s: State, step: Step)
  {
    s.Started() &&
    match step
    case Write(p, v) => NewStamp(s.history, p, v.stamp)
    case Delete(p) => true
    case Arrive(id, file, trigger, scoped) => id !in s.requests
    case Capture(id) => id in s.requests && s.requests[id].phase.Capturing? && |s.requests[id].before| < 3
    case See(id, which) => id in s.requests && which < 3 && Sees(s.requests[id].phase, which)
    case LockToGet(id) => id in s.requests && s.lock.None? && s.requests[id].phase.Ready? && !s.requests[id].scoped
    case FindStamp(id) => id in s.requests && s.requests[id].phase.Getting? && |s.requests[id].phase.found| < 3
    case Reply(id) => id in s.requests && s.requests[id].phase.Getting? && |s.requests[id].phase.found| == 3
    case SkipGet(id) => id in s.requests && s.requests[id].phase.Ready? && s.requests[id].scoped
    case LockToPut(id) => id in s.requests && s.lock.None? && s.requests[id].phase.Running?
    case Recheck(id) =>
      id in s.requests && s.requests[id].phase.Putting? && |s.requests[id].phase.rechecked| < 3
    case Finish(id) =>
      && id in s.requests && s.requests[id].phase.Putting? && |s.requests[id].before| == 3
      && (NeedsRecheck(s.requests[id]) ==> |s.requests[id].phase.rechecked| == 3)
    case Fail(id) => id in s.requests && (s.requests[id].phase.Ready? || s.requests[id].phase.Running?)
  }

  function AfterCapture(c: Setup, d: Disk, now: nat, r: Request): Request
    requires |r.before| < 3
  {
    var before := r.before + [StampAt(d, Watched(c, r.file)[|r.before|])];
    r.(before := before, beforeAt := r.beforeAt + [now], phase := if |before| == 3 then Ready else Capturing)
  }

  function AfterReply(c: Setup, entries: Entries, origins: map<Path, Origin>, r: Request): Request
    requires r.phase.Getting? && |r.phase.found| == 3
  {
    var cached := Answer(entries, AsStamps(c, r.file, r.phase.found), r.trigger);
    r.(phase := if cached.Some? && r.file in origins
                then Hit(cached.value, origins[r.file], r.phase.found, r.phase.foundAt)
                else Running)
  }

  function Graced(c: Setup, pending: Pending, r: Request): (Pending, seq<CheckResult>)
  {
    GraceCall(pending, r.file, r.trigger, c.run(InputsOf(r.seen), r.file, r.trigger, r.scoped))
  }

  /** The new stamps are stored exactly when `put` is reached and finds nothing moved. */
  predicate Stores(r: Request)
    requires r.phase.Putting? && |r.before| == 3
  {
    NeedsRecheck(r) && r.before == r.phase.rechecked
  }

  function EntriesAfter(c: Setup, entries: Entries, r: Request): Entries
    requires r.phase.Putting? && |r.before| == 3 && (NeedsRecheck(r) ==> |r.phase.rechecked| == 3)
  {
    if r.scoped then entries
    else
      var before := AsStamps(c, r.file, r.before);
      AfterPut(entries, before, if NeedsRecheck(r) then AsStamps(c, r.file, r.phase.rechecked) else before,
               r.trigger, r.phase.results)
  }

  ghost function Next(c: Setup, s: State, step: Step): State
    requires Enabled(s, step)
  {
    match step
    case Write(p, v) => s.(history := s.history + [s.Disk()[p := v]])
    case Delete(p) => s.(history := s.history + [s.Disk() - {p}])
    case Arrive(id, file, trigger, scoped) =>
      s.(requests := s.requests[id := Request(file, trigger, scoped, [], [], [], Capturing)])
    case Capture(id) => s.(requests := s.requests[id := AfterCapture(c, s.Disk(), s.Now(), s.requests[id])])
    case See(id, which) =>
      var r := s.requests[id];
      var content := ContentAt(s.Disk(), Watched(c, r.file)[which]);
      s.(requests := s.requests[id := r.(seen := r.seen + [Seen(which, content, s.Now())])])
    case LockToGet(id) =>
      s.(lock := Some(id), requests := s.requests[id := s.requests[id].(phase := Getting([], []))])
    case FindStamp(id) =>
      var r := s.requests[id];
      var found := r.phase.found + [StampAt(s.Disk(), Watched(c, r.file)[|r.phase.found|])];
      s.(requests := s.requests[id := r.(phase := Getting(found, r.phase.foundAt + [s.Now()]))])
    case Reply(id) =>
      s.(lock := None, requests := s.requests[id := AfterReply(c, s.entries, s.origins, s.requests[id])])
    case SkipGet(id) => s.(requests := s.requests[id := s.requests[id].(phase := Running)])
    case LockToPut(id) =>
      var r := s.requests[id];
      var graced := Graced(c, s.pending, r);
      s.(lock := Some(id), pending := graced.0,
         requests := s.requests[id := r.(phase := Putting(graced.1, [], [], s.Now()))])
    case Recheck(id) =>
      var r := s.requests[id];
      var stamp := StampAt(s.Disk(), Watched(c, r.file)[|r.phase.rechecked|]);
      s.(requests := s.requests[id := r.(phase := Putting(r.phase.results, r.phase.rechecked + [stamp],
                                                          r.phase.recheckedAt + [s.Now()], r.phase.lockedAt))])
    case Finish(id) =>
      var r := s.requests[id];
      s.(lock := None,
         entries := EntriesAfter(c, s.entries, r),
         origins := if Stores(r) then s.origins[r.file := Origin(r.scoped, r.beforeAt, r.phase.recheckedAt, r.seen)]
                    else s.origins,
         requests := s.requests[id := r.(phase := Ran(r.phase.results))])
    case Fail(id) => s.(requests := s.requests[id := s.requests[id].(phase := Failed)])
  }

  /** The state after `run`, from a fresh cache over disk `d`; None if some step is not enabled. */
  ghost function After(c: Setup, d: Disk, run: seq<Step>): Option<State>
  {
    if run == [] then Some(State([d], map[], map[], map[], None, map[]))
    else
      var p := After(c, d, run[..|run| - 1]);
      if p.Some? && Enabled(p.value, run[|run| - 1]) then Some(Next(c, p.value, run[|run| - 1])) else None
  }

  // ---------------------------------------------------------------------------
  // The invariant
  // ---------------------------------------------------------------------------

  /** `stamps` were taken of the first watched paths at these instants, one after the other, none before `start`. */
  ghost predicate Taken(h: seq<Disk>, paths: seq<Path>, stamps: seq<Option<Stamp>>, at: seq<nat>, start: nat)
  {
    && |stamps| == |at| <= |paths|
    && (forall i :: 0 <= i < |at| ==> start <= at[i] < |h| && stamps[i] == StampAt(h[at[i]], paths[i]))
    && forall i, j :: 0 <= i < j < |at| ==> at[i] <= at[j]
  }

  /** Everything seen was there when seen, after every stamp in `beforeAt`. */
  ghost predicate SeenAfter(h: seq<Disk>, paths: seq<Path>, beforeAt: seq<nat>, seen: seq<Seen>)
  {
    forall k :: 0 <= k < |seen| ==>
      && seen[k].which < |paths| && seen[k].at < |h|
      && seen[k].content == ContentAt(h[seen[k].at], paths[seen[k].which])
      && forall i :: 0 <= i < |beforeAt| ==> beforeAt[i] <= seen[k].at
  }

  ghost predicate SeenBefore(seen: seq<Seen>, instant: nat)
  {
    forall k :: 0 <= k < |seen| ==> seen[k].at <= instant
  }

  function EntryStamps(e: CacheEntry): (stamps: seq<Option<Stamp>>)
    ensures |stamps| == 3
  {
    [Some(e.fileStamp), e.configStamp, e.registryStamp]
  }

  /** `reported` is what the run on these inputs gave, some first failures downgraded. */
  ghost predicate UpToGrace(raw: seq<CheckResult>, reported: seq<CheckResult>)
  {
    && |raw| == |reported|
    && forall i :: 0 <= i < |raw| ==>
         reported[i] == raw[i] || (raw[i].severity == Blocking && !raw[i].passed && reported[i] == Downgraded(raw[i]))
  }

  /** The stamps were found before the run and again after it; what the run saw, it saw in between. */
  ghost predicate GoodOrigin(h: seq<Disk>, paths: seq<Path>, stamps: seq<Option<Stamp>>, o: Origin)
  {
    && !o.scoped
    && Taken(h, paths, stamps, o.beforeAt, 0)
    && Taken(h, paths, stamps, o.recheckedAt, 0)
    && AllBefore(o.beforeAt, o.recheckedAt)
    && SeenAfter(h, paths, o.beforeAt, o.seen)
    && (forall i :: 0 <= i < |o.recheckedAt| ==> SeenBefore(o.seen, o.recheckedAt[i]))
  }

  ghost predicate GoodEntry(c: Setup, h: seq<Disk>, file: Path, e: CacheEntry, o: Origin)
  {
    && GoodOrigin(h, Watched(c, file), EntryStamps(e), o)
    && UpToGrace(c.run(InputsOf(o.seen), file, e.trigger, false), e.results)
  }

  /** Each input of the run equals what was on disk when the stamp of its file was found again, if the stamp tells. */
  ghost predicate InputsOnDisk(h: seq<Disk>, paths: seq<Path>, o: Origin, stamps: seq<Option<Stamp>>, at: seq<nat>)
  {
    && |stamps| == |at| == |paths| == |o.beforeAt|
    && forall k :: 0 <= k < |o.seen| ==>
         var w := o.seen[k].which;
         && w < |paths| && at[w] < |h|
         && (StampTells(h, paths[w], stamps[w], o.beforeAt[w], at[w])
             ==> o.seen[k].content == ContentAt(h[at[w]], paths[w]))
  }

  ghost predicate AllBefore(first: seq<nat>, second: seq<nat>)
  {
    forall i, j :: 0 <= i < |first| && 0 <= j < |second| ==> first[i] <= second[j]
  }

  ghost predicate HitIsCurrent(c: Setup, h: seq<Disk>, r: Request)
    requires r.phase.Hit?
  {
    && |r.beforeAt| == |r.phase.stampsAt| == 3
    && Taken(h, Watched(c, r.file), r.phase.stamps, r.phase.stampsAt, r.beforeAt[2])
    && r.phase.stamps[0].Some?
    && GoodOrigin(h, Watched(c, r.file), r.phase.stamps, r.phase.origin)
    && AllBefore(r.phase.origin.recheckedAt, r.phase.stampsAt)
    && InputsOnDisk(h, Watched(c, r.file), r.phase.origin, r.phase.stamps, r.phase.stampsAt)
    && UpToGrace(c.run(InputsOf(r.phase.origin.seen), r.file, r.trigger, false), r.phase.cached)
  }

  ghost predicate GoodRequest(c: Setup, h: seq<Disk>, r: Request)
  {
    && Taken(h, Watched(c, r.file), r.before, r.beforeAt, 0)
    && SeenAfter(h, Watched(c, r.file), r.beforeAt, r.seen)
    && match r.phase
       case Capturing => r.seen == []
       case Ready => |r.before| == 3
       case Getting(found, foundAt) => |r.beforeAt| == 3 && Taken(h, Watched(c, r.file), found, foundAt, r.beforeAt[2])
       case Running => |r.before| == 3
       case Putting(results, rechecked, recheckedAt, lockedAt) =>
         && |r.before| == 3 && lockedAt < |h|
         && Taken(h, Watched(c, r.file), rechecked, recheckedAt, lockedAt)
         && SeenBefore(r.seen, lockedAt) && AllBefore(r.beforeAt, [lockedAt])
         && UpToGrace(c.run(InputsOf(r.seen), r.file, r.trigger, r.scoped), results)
       case Hit(_, _, _, _) => HitIsCurrent(c, h, r)
       case Ran(_) => true
       case Failed => true
  }

  ghost predicate InCriticalSection(r: Request)
  {
    r.phase.Getting? || r.phase.Putting?
  }

  ghost predicate RecheckedBy(origins: map<Path, Origin>, instant: nat)
  {
    forall p, i :: p in origins && 0 <= i < |origins[p].recheckedAt| ==> origins[p].recheckedAt[i] <= instant
  }

  ghost predicate AllRecheckedBy(origins: map<Path, Origin>, at: seq<nat>)
  {
    forall j :: 0 <= j < |at| ==> RecheckedBy(origins, at[j])
  }

  /** Only the lock holder is inside a critical section, and every entry was checked before it locked. */
  ghost predicate LockDiscipline(lock: Option<nat>, requests: map<nat, Request>, origins: map<Path, Origin>)
  {
    && (forall id :: id in requests && InCriticalSection(requests[id]) ==> lock == Some(id))
    && (forall id :: id in requests && requests[id].phase.Putting?
          ==> RecheckedBy(origins, requests[id].phase.lockedAt))
    && (forall id :: id in requests && requests[id].phase.Getting?
          ==> AllRecheckedBy(origins, requests[id].phase.foundAt))
  }

  ghost predicate EntriesGood(c: Setup, h: seq<Disk>, entries: Entries, origins: map<Path, Origin>)
  {
    && origins.Keys == entries.Keys
    && (forall p :: p in entries ==> GoodEntry(c, h, p, entries[p], origins[p]))
  }

  ghost predicate RequestsGood(c: Setup, h: seq<Disk>, requests: map<nat, Request>)
  {
    forall id :: id in requests ==> GoodRequest(c, h, requests[id])
  }

  ghost predicate Inv(c: Setup, s: State)
  {
    && s.Started()
    && ValidHistory(s.history)
    && EntriesGood(c, s.history, s.entries, s.origins)
    && RequestsGood(c, s.history, s.requests)
    && RecheckedBy(s.origins, s.Now())
    && LockDiscipline(s.lock, s.requests, s.origins)
  }

  // ---------------------------------------------------------------------------
  // Every step keeps it
  // ---------------------------------------------------------------------------

  lemma {:induction false} GraceIsUpToGrace(pending: Pending, file: string, raw: seq<CheckResult>)
    ensures UpToGrace(raw, GraceAll(pending, file, raw).1)
  {
    if raw != [] {
      var n := |raw| - 1;
      GraceIsUpToGrace(pending, file, raw[..n]);
    }
  }

  lemma TakenKept(h: seq<Disk>, d: Disk, paths: seq<Path>, stamps: seq<Option<Stamp>>, at: seq<nat>, start: nat)
    requires Taken(h, paths, stamps, at, start)
    ensures Taken(h + [d], paths, stamps, at, start)
  {
  }

  lemma SeenKept(h: seq<Disk>, d: Disk, paths: seq<Path>, beforeAt: seq<nat>, seen: seq<Seen>)
    requires SeenAfter(h, paths, beforeAt, seen)
    ensures SeenAfter(h + [d], paths, beforeAt, seen)
  {
  }

  lemma InputsKept(h: seq<Disk>, d: Disk, paths: seq<Path>, o: Origin, stamps: seq<Option<Stamp>>, at: seq<nat>)
    requires InputsOnDisk(h, paths, o, stamps, at)
    ensures InputsOnDisk(h + [d], paths, o, stamps, at)
  {
    var g := h + [d];
    assert forall k :: 0 <= k < |h| ==> g[k] == h[k];
    forall k | 0 <= k < |o.seen| && StampTells(g, paths[o.seen[k].which], stamps[o.seen[k].which],
                                               o.beforeAt[o.seen[k].which], at[o.seen[k].which])
      ensures o.seen[k].content == ContentAt(g[at[o.seen[k].which]], paths[o.seen[k].which])
    {
      var w := o.seen[k].which;
      assert StampTells(h, paths[w], stamps[w], o.beforeAt[w], at[w]);
    }
  }

  lemma OriginKept(h: seq<Disk>, d: Disk, paths: seq<Path>, stamps: seq<Option<Stamp>>, o: Origin)
    requires GoodOrigin(h, paths, stamps, o)
    ensures GoodOrigin(h + [d], paths, stamps, o)
  {
    TakenKept(h, d, paths, stamps, o.beforeAt, 0);
    TakenKept(h, d, paths, stamps, o.recheckedAt, 0);
    SeenKept(h, d, paths, o.beforeAt, o.seen);
    hide Taken, SeenAfter, SeenBefore;
  }

  lemma RequestKept(c: Setup, h: seq<Disk>, d: Disk, r: Request)
    requires GoodRequest(c, h, r)
    ensures GoodRequest(c, h + [d], r)
  {
    var w := Watched(c, r.file);
    TakenKept(h, d, w, r.before, r.beforeAt, 0);
    SeenKept(h, d, w, r.beforeAt, r.seen);
    hide Taken, SeenAfter, InputsOnDisk, SeenBefore, UpToGrace, Watched, GoodOrigin, AllBefore;
    match r.phase
    case Getting(found, foundAt) => TakenKept(h, d, w, found, foundAt, r.beforeAt[2]);
    case Putting(results, rechecked, recheckedAt, lockedAt) => TakenKept(h, d, w, rechecked, recheckedAt, lockedAt);
    case Hit(_, origin, stamps, stampsAt) =>
      TakenKept(h, d, w, stamps, stampsAt, r.beforeAt[2]);
      OriginKept(h, d, w, stamps, origin);
      InputsKept(h, d, w, origin, stamps, stampsAt);
    case _ =>
  }

  lemma EntryKept(c: Setup, h: seq<Disk>, d: Disk, file: Path, e: CacheEntry, o: Origin)
    requires GoodEntry(c, h, file, e, o)
    ensures GoodEntry(c, h + [d], file, e, o)
  {
    var w := Watched(c, file);
    OriginKept(h, d, w, EntryStamps(e), o);
    hide GoodOrigin, UpToGrace, Watched;
  }

  lemma EditKeepsInv(c: Setup, s: State, d: Disk)
    requires Inv(c, s) && ValidHistory(s.history + [d])
    ensures Inv(c, s.(history := s.history + [d]))
  {
    hide GoodEntry, GoodRequest, ValidHistory;
    forall p | p in s.entries ensures GoodEntry(c, s.history + [d], p, s.entries[p], s.origins[p]) {
      EntryKept(c, s.history, d, p, s.entries[p], s.origins[p]);
    }
    forall id | id in s.requests ensures GoodRequest(c, s.history + [d], s.requests[id]) {
      RequestKept(c, s.history, d, s.requests[id]);
    }
  }

  /** What a stored run saw is what is on disk whenever its stamps are found again. */
  lemma StampsFoundAgain(h: seq<Disk>, paths: seq<Path>, o: Origin, stamps: seq<Option<Stamp>>, at: seq<nat>)
    requires ValidHistory(h) && |paths| == |stamps| && GoodOrigin(h, paths, stamps, o)
    requires Taken(h, paths, stamps, at, 0) && AllBefore(o.recheckedAt, at)
    ensures InputsOnDisk(h, paths, o, stamps, at)
  {
    forall k | 0 <= k < |o.seen| && StampTells(h, paths[o.seen[k].which], stamps[o.seen[k].which],
                                               o.beforeAt[o.seen[k].which], at[o.seen[k].which])
      ensures o.seen[k].content == ContentAt(h[at[o.seen[k].which]], paths[o.seen[k].which])
    {
      var i := o.seen[k].which;
      assert o.seen[k].at <= o.recheckedAt[i] <= at[i];
      SameStampSameContent(h, paths[i], o.beforeAt[i], o.seen[k].at, at[i]);
    }
  }

  lemma RecheckedBeforeFound(origins: map<Path, Origin>, file: Path, at: seq<nat>)
    requires AllRecheckedBy(origins, at) && file in origins
    ensures AllBefore(origins[file].recheckedAt, at)
  {
  }

  lemma TakenSince(h: seq<Disk>, paths: seq<Path>, stamps: seq<Option<Stamp>>, at: seq<nat>, start: nat)
    requires Taken(h, paths, stamps, at, start)
    ensures Taken(h, paths, stamps, at, 0)
  {
  }

  lemma ReplyIsGood(c: Setup, h: seq<Disk>, entries: Entries, origins: map<Path, Origin>, r: Request)
    requires ValidHistory(h) && GoodRequest(c, h, r) && r.phase.Getting? && |r.phase.found| == 3
    requires r.file in origins ==> r.file in entries && GoodEntry(c, h, r.file, entries[r.file], origins[r.file])
    requires AllRecheckedBy(origins, r.phase.foundAt)
    ensures GoodRequest(c, h, AfterReply(c, entries, origins, r))
  {
    var t := AfterReply(c, entries, origins, r);
    if t.phase.Hit? {
      var e := entries[r.file];
      assert r.phase.found == EntryStamps(e);
      RecheckedBeforeFound(origins, r.file, r.phase.foundAt);
      TakenSince(h, Watched(c, r.file), r.phase.found, r.phase.foundAt, r.beforeAt[2]);
      hide Taken, SeenAfter, SeenBefore, GoodOrigin, InputsOnDisk, ValidHistory;
      StampsFoundAgain(h, Watched(c, r.file), origins[r.file], r.phase.found, r.phase.foundAt);
    }
  }

  lemma GracedIsGood(c: Setup, h: seq<Disk>, pending: Pending, r: Request)
    requires GoodRequest(c, h, r) && r.phase.Running? && |h| > 0
    ensures GoodRequest(c, h, r.(phase := Putting(Graced(c, pending, r).1, [], [], |h| - 1)))
  {
    var raw := c.run(InputsOf(r.seen), r.file, r.trigger, r.scoped);
    if r.trigger != "batch" {
      GraceIsUpToGrace(pending, r.file, raw);
    }
  }

  lemma StoredIsGood(c: Setup, h: seq<Disk>, entries: Entries, r: Request)
    requires GoodRequest(c, h, r) && r.phase.Putting? && Stores(r)
    ensures |r.phase.rechecked| == 3
    ensures r.file in EntriesAfter(c, entries, r)
    ensures EntryStamps(EntriesAfter(c, entries, r)[r.file]) == r.before
    ensures GoodEntry(c, h, r.file, EntriesAfter(c, entries, r)[r.file],
                      Origin(r.scoped, r.beforeAt, r.phase.recheckedAt, r.seen))
  {
    var e := EntriesAfter(c, entries, r)[r.file];
    assert EntryStamps(e) == r.before;
    BeforeRechecked(h, Watched(c, r.file), r);
  }

  lemma BeforeRechecked(h: seq<Disk>, paths: seq<Path>, r: Request)
    requires r.phase.Putting? && AllBefore(r.beforeAt, [r.phase.lockedAt])
    requires Taken(h, paths, r.phase.rechecked, r.phase.recheckedAt, r.phase.lockedAt)
    ensures AllBefore(r.beforeAt, r.phase.recheckedAt)
  {
    assert [r.phase.lockedAt][0] == r.phase.lockedAt;
  }

  /** Finishing either leaves the entries alone or replaces that of this file. */
  lemma FinishedEntries(c: Setup, entries: Entries, r: Request)
    requires r.phase.Putting? && |r.before| == 3 && (NeedsRecheck(r) ==> |r.phase.rechecked| == 3)
    ensures !Stores(r) ==> EntriesAfter(c, entries, r) == entries
    ensures Stores(r) ==> r.file in EntriesAfter(c, entries, r)
                          && EntriesAfter(c, entries, r) == entries[r.file := EntriesAfter(c, entries, r)[r.file]]
  {
    if NeedsRecheck(r) && AsStamps(c, r.file, r.before) == AsStamps(c, r.file, r.phase.rechecked) {
      assert r.before == r.phase.rechecked;
    }
  }

  lemma OneEntryReplaced(c: Setup, h: seq<Disk>, entries: Entries, origins: map<Path, Origin>, file: Path,
                         e: CacheEntry, o: Origin)
    requires EntriesGood(c, h, entries, origins) && GoodEntry(c, h, file, e, o)
    ensures EntriesGood(c, h, entries[file := e], origins[file := o])
  {
    hide GoodEntry;
  }

  lemma OneOriginReplaced(origins: map<Path, Origin>, file: Path, o: Origin, instant: nat)
    requires RecheckedBy(origins, instant)
    requires forall i :: 0 <= i < |o.recheckedAt| ==> o.recheckedAt[i] <= instant
    ensures RecheckedBy(origins[file := o], instant)
  {
  }

  /** A step that changes one request, and perhaps takes or frees the lock for it. */
  lemma RequestStepKeepsInv(c: Setup, s: State, id: nat, r: Request, lock: Option<nat>, pending: Pending)
    requires Inv(c, s) && GoodRequest(c, s.history, r)
    requires s.lock == None || s.lock == Some(id) || (lock == s.lock && !InCriticalSection(r))
    requires InCriticalSection(r) ==> lock == Some(id)
    requires r.phase.Putting? ==> RecheckedBy(s.origins, r.phase.lockedAt)
    requires r.phase.Getting? ==> AllRecheckedBy(s.origins, r.phase.foundAt)
    ensures Inv(c, s.(requests := s.requests[id := r], lock := lock, pending := pending))
  {
    hide ValidHistory, GoodEntry, GoodRequest, RecheckedBy, AllRecheckedBy;
  }

  lemma FinishKeepsEntries(c: Setup, s: State, r: Request)
    requires Inv(c, s) && GoodRequest(c, s.history, r) && r.phase.Putting?
    requires NeedsRecheck(r) ==> |r.phase.rechecked| == 3
    ensures var o := Origin(r.scoped, r.beforeAt, r.phase.recheckedAt, r.seen);
            var origins := if Stores(r) then s.origins[r.file := o] else s.origins;
            && EntriesGood(c, s.history, EntriesAfter(c, s.entries, r), origins)
            && RecheckedBy(origins, s.Now())
  {
    FinishedEntries(c, s.entries, r);
    if Stores(r) {
      StoredIsGood(c, s.history, s.entries, r);
      var o := Origin(r.scoped, r.beforeAt, r.phase.recheckedAt, r.seen);
      hide ValidHistory, GoodEntry, EntriesAfter, EntriesGood, RecheckedBy, LockDiscipline, RequestsGood, Watched;
      OneEntryReplaced(c, s.history, s.entries, s.origins, r.file, EntriesAfter(c, s.entries, r)[r.file], o);
      OneOriginReplaced(s.origins, r.file, o, s.Now());
    }
  }

  lemma FinishFreesLock(s: State, id: nat, r: Request, origins: map<Path, Origin>)
    requires LockDiscipline(s.lock, s.requests, s.origins)
    requires id in s.requests && InCriticalSection(s.requests[id]) && !InCriticalSection(r)
    ensures LockDiscipline(None, s.requests[id := r], origins)
  {
  }

  lemma FinishKeepsInv(c: Setup, s: State, id: nat)
    requires Inv(c, s) && Enabled(s, Finish(id))
    ensures Inv(c, Next(c, s, Finish(id)))
  {
    var r := s.requests[id];
    var done := r.(phase := Ran(r.phase.results));
    assert GoodRequest(c, s.history, r);
    assert GoodRequest(c, s.history, done);
    FinishKeepsEntries(c, s, r);
    hide ValidHistory, GoodEntry, GoodRequest, EntriesGood, RecheckedBy, EntriesAfter, LockDiscipline;
    FinishFreesLock(s, id, done, Next(c, s, Finish(id)).origins);
  }

  lemma CaptureIsGood(c: Setup, h: seq<Disk>, r: Request)
    requires GoodRequest(c, h, r) && r.phase.Capturing? && |r.before| < 3 && |h| > 0
    ensures GoodRequest(c, h, AfterCapture(c, h[|h| - 1], |h| - 1, r))
  {
  }

  lemma SeeIsGood(c: Setup, h: seq<Disk>, r: Request, which: nat)
    requires GoodRequest(c, h, r) && (r.phase.Ready? || r.phase.Running?) && which < 3 && |h| > 0
    ensures GoodRequest(c, h,
                        r.(seen := r.seen + [Seen(which, ContentAt(h[|h| - 1], Watched(c, r.file)[which]), |h| - 1)]))
  {
  }

  lemma FindIsGood(c: Setup, h: seq<Disk>, r: Request)
    requires GoodRequest(c, h, r) && r.phase.Getting? && |r.phase.found| < 3 && |h| > 0
    ensures var stamp := StampAt(h[|h| - 1], Watched(c, r.file)[|r.phase.found|]);
            GoodRequest(c, h, r.(phase := Getting(r.phase.found + [stamp], r.phase.foundAt + [|h| - 1])))
  {
  }

  lemma RecheckIsGood(c: Setup, h: seq<Disk>, r: Request)
    requires GoodRequest(c, h, r) && r.phase.Putting? && |r.phase.rechecked| < 3 && |h| > 0
    ensures var stamp := StampAt(h[|h| - 1], Watched(c, r.file)[|r.phase.rechecked|]);
            GoodRequest(c, h, r.(phase := Putting(r.phase.results, r.phase.rechecked + [stamp],
                                                  r.phase.recheckedAt + [|h| - 1], r.phase.lockedAt)))
  {
  }

  lemma RequestOf(c: Setup, s: State, id: nat)
    requires Inv(c, s) && id in s.requests
    ensures |s.history| > 0 && ValidHistory(s.history) && GoodRequest(c, s.history, s.requests[id])
    ensures InCriticalSection(s.requests[id]) ==> s.lock == Some(id)
    ensures s.requests[id].phase.Putting? ==> RecheckedBy(s.origins, s.requests[id].phase.lockedAt)
    ensures s.requests[id].phase.Getting? ==> AllRecheckedBy(s.origins, s.requests[id].phase.foundAt)
    ensures RecheckedBy(s.origins, |s.history| - 1)
  {
    hide ValidHistory, GoodEntry, GoodRequest, RecheckedBy, AllRecheckedBy;
  }

  lemma EntryOf(c: Setup, s: State, file: Path)
    requires Inv(c, s) && file in s.origins
    ensures file in s.entries && GoodEntry(c, s.history, file, s.entries[file], s.origins[file])
  {
    hide ValidHistory, GoodEntry, GoodRequest, RecheckedBy;
  }

  lemma PlainStepKeepsInv(c: Setup, s: State, step: Step)
    requires Inv(c, s) && Enabled(s, step)
    requires step.Arrive? || step.SkipGet? || step.Fail?
    ensures Inv(c, Next(c, s, step))
  {
    hide Inv, ValidHistory;
    var t, id := Next(c, s, step), step.id;
    if !step.Arrive? {
      RequestOf(c, s, id);
    }
    assert GoodRequest(c, s.history, t.requests[id]);
    hide GoodRequest;
    RequestStepKeepsInv(c, s, id, t.requests[id], t.lock, t.pending);
  }

  lemma CaptureStepKeepsInv(c: Setup, s: State, step: Step)
    requires Inv(c, s) && Enabled(s, step)
    requires step.Capture? || step.See?
    ensures Inv(c, Next(c, s, step))
  {
    hide Inv, GoodRequest, ValidHistory, RecheckedBy, Watched;
    var t, id := Next(c, s, step), step.id;
    RequestOf(c, s, id);
    if step.Capture? {
      CaptureIsGood(c, s.history, s.requests[id]);
    } else {
      SeeIsGood(c, s.history, s.requests[id], step.which);
    }
    RequestStepKeepsInv(c, s, id, t.requests[id], t.lock, t.pending);
  }

  lemma LockStepKeepsInv(c: Setup, s: State, step: Step)
    requires Inv(c, s) && Enabled(s, step) && step.LockToGet?
    ensures Inv(c, Next(c, s, step))
  {
    hide Inv, ValidHistory, RecheckedBy, Watched;
    var t, id := Next(c, s, step), step.id;
    RequestOf(c, s, id);
    assert GoodRequest(c, s.history, t.requests[id]);
    hide GoodRequest;
    RequestStepKeepsInv(c, s, id, t.requests[id], t.lock, t.pending);
  }

  lemma FindStepKeepsInv(c: Setup, s: State, step: Step)
    requires Inv(c, s) && Enabled(s, step) && step.FindStamp?
    ensures Inv(c, Next(c, s, step))
  {
    hide Inv, ValidHistory, RecheckedBy, Watched, GoodRequest;
    var t, id := Next(c, s, step), step.id;
    RequestOf(c, s, id);
    FindIsGood(c, s.history, s.requests[id]);
    RequestStepKeepsInv(c, s, id, t.requests[id], t.lock, t.pending);
  }

  lemma ReplyStepKeepsInv(c: Setup, s: State, step: Step)
    requires Inv(c, s) && Enabled(s, step) && step.Reply?
    ensures Inv(c, Next(c, s, step))
  {
    hide Inv, ValidHistory, RecheckedBy, Watched, GoodRequest, GoodEntry, AllRecheckedBy;
    var t, id := Next(c, s, step), step.id;
    RequestOf(c, s, id);
    if s.requests[id].file in s.origins {
      EntryOf(c, s, s.requests[id].file);
    }
    ReplyIsGood(c, s.history, s.entries, s.origins, s.requests[id]);
    RequestStepKeepsInv(c, s, id, t.requests[id], t.lock, t.pending);
  }

  lemma PutStepKeepsInv(c: Setup, s: State, step: Step)
    requires Inv(c, s) && Enabled(s, step)
    requires step.LockToPut? || step.Recheck?
    ensures Inv(c, Next(c, s, step))
  {
    hide Inv, GoodRequest, ValidHistory, RecheckedBy, Watched;
    var h, t, id := s.history, Next(c, s, step), step.id;
    RequestOf(c, s, id);
    if step.LockToPut? {
      GracedIsGood(c, h, s.pending, s.requests[id]);
    } else {
      RecheckIsGood(c, h, s.requests[id]);
    }
    RequestStepKeepsInv(c, s, id, t.requests[id], t.lock, t.pending);
  }

  lemma StepKeepsInv(c: Setup, s: State, step: Step)
    requires Inv(c, s) && Enabled(s, step)
    ensures Inv(c, Next(c, s, step))
  {
    hide Inv, NewStamp;
    match step
    case Write(p, v) =>
      HistoryOf(c, s);
      WriteKeepsHistory(s.history, p, v);
      EditKeepsInv(c, s, s.Disk()[p := v]);
    case Delete(p) =>
      HistoryOf(c, s);
      DeleteKeepsHistory(s.history, p);
      EditKeepsInv(c, s, s.Disk() - {p});
    case LockToGet(_) => LockStepKeepsInv(c, s, step);
    case FindStamp(_) => FindStepKeepsInv(c, s, step);
    case Reply(_) => ReplyStepKeepsInv(c, s, step);
    case LockToPut(_) => PutStepKeepsInv(c, s, step);
    case Recheck(_) => PutStepKeepsInv(c, s, step);
    case Finish(id) => FinishKeepsInv(c, s, id);
    case Capture(_) => CaptureStepKeepsInv(c, s, step);
    case See(_, _) => CaptureStepKeepsInv(c, s, step);
    case _ => PlainStepKeepsInv(c, s, step);
  }

  lemma HistoryOf(c: Setup, s: State)
    requires Inv(c, s)
    ensures ValidHistory(s.history)
  {
  }

  lemma {:induction false} RunKeepsInv(c: Setup, d: Disk, run: seq<Step>)
    requires After(c, d, run).Some?
    ensures Inv(c, After(c, d, run).value)
  {
    if run == [] {
      forall p, i: nat, k: nat, j: nat ensures OneVersion([d], p, i, k, j) {
      }
    } else {
      RunKeepsInv(c, d, run[..|run| - 1]);
      StepKeepsInv(c, After(c, d, run[..|run| - 1]).value, run[|run| - 1]);
    }
  }

  // ---------------------------------------------------------------------------
  // The results
  // ---------------------------------------------------------------------------

  /**
   * In every run, a cached answer is, up to grace downgrades, what the checks give for a request without changed
   * lines on contents of file, config and registry that were on disk when this request looked up their stamps;
   * of a config or registry absent then, unless it existed in between since the stored run found it absent.
   */
  lemma EveryHitIsCurrent(c: Setup, d: Disk, run: seq<Step>, s: State, id: nat)
    requires After(c, d, run) == Some(s)
    requires id in s.requests && s.requests[id].phase.Hit?
    ensures HitIsCurrent(c, s.history, s.requests[id])
  {
    RunKeepsInv(c, d, run);
  }

  /** No result of a diff-scoped request is ever stored. */
  lemma ScopedIsNeverStored(c: Setup, d: Disk, run: seq<Step>, s: State, file: Path)
    requires After(c, d, run) == Some(s) && file in s.entries
    ensures file in s.origins && !s.origins[file].scoped
    ensures UpToGrace(c.run(InputsOf(s.origins[file].seen), file, s.entries[file].trigger, false),
                      s.entries[file].results)
  {
    RunKeepsInv(c, d, run);
    assert GoodEntry(c, s.history, file, s.entries[file], s.origins[file]);
  }

  /** When the stamps of the entry for `file` were last compared. */
  function RecheckedAt(origins: map<Path, Origin>, file: Path, i: nat): nat
  {
    if file in origins && i < |origins[file].recheckedAt| then origins[file].recheckedAt[i] else 0
  }

  lemma EntryHasOrigin(c: Setup, s: State, file: Path)
    requires Inv(c, s) && file in s.entries
    ensures file in s.origins
  {
  }

  lemma RequestStampFound(c: Setup, h: seq<Disk>, r: Request, i: nat)
    requires GoodRequest(c, h, r) && r.phase.Putting? && Stores(r) && i < 3
    ensures |r.before| == |r.phase.recheckedAt| == 3
    ensures r.phase.lockedAt <= r.phase.recheckedAt[i] < |h|
    ensures r.before[i] == StampAt(h[r.phase.recheckedAt[i]], Watched(c, r.file)[i])
  {
  }

  lemma EntryStampFound(c: Setup, h: seq<Disk>, file: Path, e: CacheEntry, o: Origin, i: nat)
    requires GoodEntry(c, h, file, e, o) && i < 3
    ensures |o.recheckedAt| == 3 && o.recheckedAt[i] < |h|
    ensures EntryStamps(e)[i] == StampAt(h[o.recheckedAt[i]], Watched(c, file)[i])
  {
  }

  /**
   * However late a `put` comes, it does not replace an entry that still matches the disk by one of another
   * version: each stamp of the entry that tells its content and is still current is the stamp the run itself
   * started from.
   */
  lemma LatePutKeepsCurrentEntry(c: Setup, d: Disk, run: seq<Step>, s: State, id: nat, i: nat)
    requires After(c, d, run) == Some(s) && Enabled(s, Finish(id))
    requires var r := s.requests[id];
             Stores(r) && r.file in s.entries && i < 3
             && StampTells(s.history, Watched(c, r.file)[i], EntryStamps(s.entries[r.file])[i],
                           RecheckedAt(s.origins, r.file, i), s.Now())
             && EntryStamps(s.entries[r.file])[i] == StampAt(s.Disk(), Watched(c, r.file)[i])
    ensures EntryStamps(s.entries[s.requests[id].file])[i] == s.requests[id].before[i]
  {
    hide Inv, ValidHistory, RecheckedBy, GoodEntry, GoodRequest, After, Stores, Watched, StampTells, EntryStamps;
    RunKeepsInv(c, d, run);
    var r := s.requests[id];
    EntryHasOrigin(c, s, r.file);
    RequestOf(c, s, id);
    EntryOf(c, s, r.file);
    LatePutKeepsStamp(c, s.history, s.origins, r, s.entries[r.file], i);
  }

  lemma LatePutKeepsStamp(c: Setup, h: seq<Disk>, origins: map<Path, Origin>, r: Request, e: CacheEntry, i: nat)
    requires ValidHistory(h) && GoodRequest(c, h, r) && r.phase.Putting? && Stores(r) && i < 3
    requires r.file in origins && GoodEntry(c, h, r.file, e, origins[r.file]) && RecheckedBy(origins, r.phase.lockedAt)
    requires StampTells(h, Watched(c, r.file)[i], EntryStamps(e)[i], RecheckedAt(origins, r.file, i), |h| - 1)
    requires EntryStamps(e)[i] == StampAt(h[|h| - 1], Watched(c, r.file)[i])
    ensures EntryStamps(e)[i] == r.before[i]
  {
    var o := origins[r.file];
    RequestStampFound(c, h, r, i);
    EntryStampFound(c, h, r.file, e, o, i);
    RecheckedEarlier(origins, r.file, i, r.phase.lockedAt);
    hide ValidHistory, RecheckedBy, GoodEntry, GoodRequest, Stores, Watched, StampTells, EntryStamps;
    StampCannotReturn(h, Watched(c, r.file)[i], o.recheckedAt[i], r.phase.recheckedAt[i]);
  }

  lemma RecheckedEarlier(origins: map<Path, Origin>, file: Path, i: nat, instant: nat)
    requires RecheckedBy(origins, instant) && file in origins && i < |origins[file].recheckedAt|
    ensures origins[file].recheckedAt[i] <= instant
  {
  }

  lemma StampCannotReturn(h: seq<Disk>, p: Path, i: nat, k: nat)
    requires ValidHistory(h) && i <= k < |h|
    requires StampTells(h, p, StampAt(h[i], p), i, |h| - 1) && StampAt(h[i], p) == StampAt(h[|h| - 1], p)
    ensures StampAt(h[k], p) == StampAt(h[i], p)
  {
    SameStampSameContent(h, p, i, k, |h| - 1);
  }

  // ---------------------------------------------------------------------------
  // The grace period
  // ---------------------------------------------------------------------------

  /** The call to the grace tracker that a step makes: one when a request locks to store its results. */
  ghost function CallOf(c: Setup, s: State, step: Step): seq<Call>
    requires Enabled(s, step)
  {
    if step.LockToPut? then
      var r := s.requests[step.id];
      [Call(r.file, r.trigger, c.run(InputsOf(r.seen), r.file, r.trigger, r.scoped))]
    else []
  }

  /** The calls of a run, in the order in which the lock was taken. */
  ghost function CallsOf(c: Setup, d: Disk, run: seq<Step>): seq<Call>
    requires After(c, d, run).Some?
  {
    if run == [] then []
    else
      var before := run[..|run| - 1];
      CallsOf(c, d, before) + CallOf(c, After(c, d, before).value, run[|run| - 1])
  }

  /** The tracker after any run is that after those calls, one after the other. */
  lemma {:induction false} PendingIsSerial(c: Setup, d: Disk, run: seq<Step>)
    requires After(c, d, run).Some?
    ensures After(c, d, run).value.pending == PendingAfter(CallsOf(c, d, run))
  {
    hide GraceCall;
    if run != [] {
      var before := run[..|run| - 1];
      PendingIsSerial(c, d, before);
      PendingSteps(c, After(c, d, before).value, run[|run| - 1], CallsOf(c, d, before));
    }
  }

  lemma {:induction false} PendingSteps(c: Setup, s: State, step: Step, log: seq<Call>)
    requires Enabled(s, step) && s.pending == PendingAfter(log)
    ensures Next(c, s, step).pending == PendingAfter(log + CallOf(c, s, step))
  {
    hide GraceCall;
    if step.LockToPut? {
      var call := CallOf(c, s, step)[0];
      assert (log + [call])[..|log + [call]| - 1] == log;
    } else {
      assert log + [] == log;
    }
  }

  lemma CallWhenLocking(c: Setup, s: State, id: nat)
    requires Enabled(s, LockToPut(id))
    ensures id in s.requests
    ensures var r, t := s.requests[id], Next(c, s, LockToPut(id)).requests[id];
            var raw := c.run(InputsOf(r.seen), r.file, r.trigger, r.scoped);
            && CallOf(c, s, LockToPut(id)) == [Call(r.file, r.trigger, raw)]
            && t.phase == Putting(GraceCall(s.pending, r.file, r.trigger, raw).1, [], [], s.Now())
  {
    hide GraceCall, InputsOf;
  }

  /**
   * A live request that locks next to store blocks on exactly the failures whose key
   * failed the last time, in lock order.
   */
  lemma {:induction false} BlocksInLockOrder(c: Setup, d: Disk, run: seq<Step>, s: State, id: nat, i: nat)
    requires After(c, d, run) == Some(s) && Enabled(s, LockToPut(id))
    requires var r := s.requests[id];
             r.trigger != "batch" && i < |c.run(InputsOf(r.seen), r.file, r.trigger, r.scoped)|
    ensures var r, t := s.requests[id], Next(c, s, LockToPut(id)).requests[id];
            var raw := c.run(InputsOf(r.seen), r.file, r.trigger, r.scoped);
            var earlier := Events(CallsOf(c, d, run)) + EventsOf(r.file, raw[..i]);
            && t.phase.Putting? && |t.phase.results| == |raw|
            && t.phase.results[i] == if raw[i].severity == Blocking && !raw[i].passed
                                        && !LatestFailed(earlier, GraceKey(r.file, raw[i].checkName))
                                     then Downgraded(raw[i]) else raw[i]
  {
    hide *;
    PendingIsSerial(c, d, run);
    CallWhenLocking(c, s, id);
    BlocksIffStillFailing(CallsOf(c, d, run), CallOf(c, s, LockToPut(id))[0], i);
  }
}
