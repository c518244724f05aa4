/**
 * The single-slot architecture-model cache, whose callers stamp before they lock and build unlocked.
 * First the cache object itself, then every interleaving of callers, builds and file edits.
 */
module ModelCache {
  import opened Wrappers
  import opened FileHistory

  datatype Key = Key(repoRoot: Path, includePrivate: bool)

  /** A file as a build saw it; `at` records when, and no step looks at it. */
  datatype Read = Read(path: Path, content: Option<Content>, at: nat)

  /** A model is a function of its key, its file list and what the build read. */
  datatype Model = Model(key: Key, files: seq<Path>, seen: seq<Read>)

  /** The slot's content; `stampedAt` records when each stamp was taken, and no step looks at it. */
  datatype Entry = Entry(key: Key, files: seq<Path>, stamps: seq<Option<Stamp>>, model: Model, stampedAt: seq<nat>)

  /** The hit test: same key, same paths, same stamps, in order. */
  function CachedFor(slot: Option<Entry>, key: Key, files: seq<Path>, stamps: seq<Option<Stamp>>): Option<Model>
  {
    if slot.Some? && slot.value.key == key && slot.value.files == files && slot.value.stamps == stamps
    then Some(slot.value.model)
    else None
  }

  function StampsAt(d: Disk, files: seq<Path>): (stamps: seq<Option<Stamp>>)
    ensures |stamps| == |files|
  {
    seq(|files|, i requires 0 <= i < |files| => StampAt(d, files[i]))
  }

  class Cache {
    var slot: Option<Entry>

    constructor ()
      ensures slot == None
    {
      slot := None;
    }

    /** The first critical section. */
    method Lookup(key: Key, files: seq<Path>, stamps: seq<Option<Stamp>>) returns (cached: Option<Model>)
      ensures cached == CachedFor(slot, key, files, stamps)
    {
      if slot.Some? && slot.value.key == key && slot.value.files == files && slot.value.stamps == stamps {
        return Some(slot.value.model);
      }
      return None;
    }

    /** The second critical section. */
    method Install(entry: Entry)
      modifies this
      ensures slot == Some(entry)
    {
      slot := Some(entry);
    }

    /** One caller alone, on a disk nobody edits: at most one build, and none while the slot is fresh. */
    method GetOrBuild(disk: Disk, now: nat, key: Key, files: seq<Path>, build: () -> Result<Model, string>)
      returns (result: Result<Model, string>, builds: nat)
      modifies this
      ensures CachedFor(old(slot), key, files, StampsAt(disk, files)).Some? ==>
                builds == 0 && slot == old(slot) && result == Ok(old(slot).value.model)
      ensures CachedFor(old(slot), key, files, StampsAt(disk, files)).None? ==> builds == 1 && result == build()
      ensures result.Ok? ==> CachedFor(slot, key, files, StampsAt(disk, files)) == Some(result.value)
      ensures result.Err? ==> slot == old(slot)
    {
      var stamps: seq<Option<Stamp>> := [];
      for i := 0 to |files|
        invariant |stamps| == i
        invariant forall k :: 0 <= k < i ==> stamps[k] == StampAt(disk, files[k])
      {
        stamps := stamps + [StampAt(disk, files[i])];
      }
      assert stamps == StampsAt(disk, files);
      var cached := Lookup(key, files, stamps);
      if cached.Some? {
        return Ok(cached.value), 0;
      }
      result, builds := build(), 1;
      if result.Ok? {
        Install(Entry(key, files, stamps, result.value, seq(|files|, _ => now)));
      }
    }
  }

  // ---------------------------------------------------------------------------
  // Every interleaving
  // ---------------------------------------------------------------------------

  /**
   * Where one call of get_or_build stands. `since` records when the files of a returned
   * model were stamped for its build.
   */
  datatype Phase = Stamping | Building(seen: seq<Read>) | Returned(model: Model, end: nat, since: seq<nat>) | Failed

  /** One call; `start` is the instant it began. */
  datatype Call = Call(key: Key, files: seq<Path>, start: nat, stamps: seq<Option<Stamp>>, stampedAt: seq<nat>,
                       phase: Phase)

  datatype State = State(history: seq<Disk>, slot: Option<Entry>, calls: map<nat, Call>) {
    ghost predicate Started() { |history| > 0 }
    function Now(): nat requires |history| > 0 { |history| - 1 }
    function Disk(): Disk requires |history| > 0 { history[|history| - 1] }
  }

  datatype Step =
    | Write(path: Path, version: Version)
    | Delete(path: Path)
    | Begin(id: nat, key: Key, files: seq<Path>)
    | TakeStamp(id: nat)
    | TryHit(id: nat)
    | ReadFile(id: nat, path: Path)
    | BuildFails(id: nat)
    | Store(id: nat)

  ghost predicate Enabled(s: State, step: Step)
  {
    s.Started() &&
    match step
    case Write(p, v) => NewStamp(s.history, p, v.stamp)
    case Delete(p) => true
    case Begin(id, key, files) => id !in s.calls
    case TakeStamp(id) => id in s.calls && s.calls[id].phase.Stamping? && |s.calls[id].stamps| < |s.calls[id].files|
    case TryHit(id) => id in s.calls && s.calls[id].phase.Stamping? && |s.calls[id].stamps| == |s.calls[id].files|
    case ReadFile(id, p) => id in s.calls && s.calls[id].phase.Building? && p in s.calls[id].files
    case BuildFails(id) => id in s.calls && s.calls[id].phase.Building?
    case Store(id) => id in s.calls && s.calls[id].phase.Building?
  }

  function AfterTryHit(slot: Option<Entry>, c: Call, now: nat): Phase
  {
    var cached := CachedFor(slot, c.key, c.files, c.stamps);
    if cached.Some? then Returned(cached.value, now, slot.value.stampedAt) else Building([])
  }

  function Built(c: Call): Model
    requires c.phase.Building?
  {
    Model(c.key, c.files, c.phase.seen)
  }

  ghost function Next(s: State, step: Step): State
    requires Enabled(s, step)
  {
    match step
    case Write(p, v) => s.(history := s.history + [s.Disk()[p := v]])
    case Delete(p) => s.(history := s.history + [s.Disk() - {p}])
    case Begin(id, key, files) => s.(calls := s.calls[id := Call(key, files, s.Now(), [], [], Stamping)])
    case TakeStamp(id) =>
      var c := s.calls[id];
      s.(calls := s.calls[id := c.(stamps := c.stamps + [StampAt(s.Disk(), c.files[|c.stamps|])],
                                   stampedAt := c.stampedAt + [s.Now()])])
    case TryHit(id) =>
      var c := s.calls[id];
      s.(calls := s.calls[id := c.(phase := AfterTryHit(s.slot, c, s.Now()))])
    case ReadFile(id, p) =>
      var c := s.calls[id];
      s.(calls := s.calls[id := c.(phase := Building(c.phase.seen + [Read(p, ContentAt(s.Disk(), p), s.Now())]))])
    case BuildFails(id) => s.(calls := s.calls[id := s.calls[id].(phase := Failed)])
    case Store(id) =>
      var c := s.calls[id];
      s.(slot := Some(Entry(c.key, c.files, c.stamps, Built(c), c.stampedAt)),
         calls := s.calls[id := c.(phase := Returned(Built(c), s.Now(), c.stampedAt))])
  }

  /** The state after `run`, starting with a fresh cache over disk `d`; None if some step is not enabled. */
  ghost function After(d: Disk, run: seq<Step>): Option<State>
  {
    if run == [] then Some(State([d], None, map[]))
    else
      var p := After(d, run[..|run| - 1]);
      if p.Some? && Enabled(p.value, run[|run| - 1]) then Some(Next(p.value, run[|run| - 1])) else None
  }

  // ---------------------------------------------------------------------------
  // The invariant
  // ---------------------------------------------------------------------------

  /** The stamps were taken of these files at these instants, none before `start`. */
  ghost predicate StampsTaken(h: seq<Disk>, files: seq<Path>, start: nat, stamps: seq<Option<Stamp>>,
                              stampedAt: seq<nat>)
  {
    && |stamps| == |stampedAt| <= |files|
    && forall i :: 0 <= i < |stamps| ==> start <= stampedAt[i] < |h| && stamps[i] == StampAt(h[stampedAt[i]], files[i])
  }

  /** Each read was of a listed file and happened after every stamp. */
  ghost predicate ReadsTaken(h: seq<Disk>, files: seq<Path>, stampedAt: seq<nat>, start: nat, seen: seq<Read>)
  {
    forall r :: 0 <= r < |seen| ==>
      && seen[r].path in files
      && start <= seen[r].at < |h| && seen[r].content == ContentAt(h[seen[r].at], seen[r].path)
      && forall i :: 0 <= i < |stampedAt| ==> stampedAt[i] <= seen[r].at
  }

  /** `content` of `path` was on disk at some instant from `start` to `end`. */
  ghost predicate OnDiskDuring(h: seq<Disk>, path: Path, content: Option<Content>, start: nat, end: nat)
  {
    exists t :: start <= t <= end && t < |h| && ContentAt(h[t], path) == content
  }

  /** Some stamp of `path` tells its content, from the stamping for the build to that by the call. */
  ghost predicate Told(h: seq<Disk>, c: Call, path: Path, since: seq<nat>)
  {
    exists i :: 0 <= i < |c.files| && i < |c.stamps| && i < |c.stampedAt| && i < |since|
                && c.files[i] == path && StampTells(h, path, c.stamps[i], since[i], c.stampedAt[i])
  }

  /** The returned model is for this key and file list, and used only contents on disk during the call. */
  ghost predicate Fresh(h: seq<Disk>, c: Call, model: Model, end: nat, since: seq<nat>)
  {
    && model.key == c.key && model.files == c.files && end < |h|
    && (forall r :: 0 <= r < |model.seen| ==> model.seen[r].path in c.files)
    && forall r :: 0 <= r < |model.seen| && Told(h, c, model.seen[r].path, since) ==>
         OnDiskDuring(h, model.seen[r].path, model.seen[r].content, c.start, end)
  }

  ghost predicate GoodCall(h: seq<Disk>, c: Call)
  {
    && c.start < |h|
    && StampsTaken(h, c.files, c.start, c.stamps, c.stampedAt)
    && match c.phase
       case Stamping => true
       case Building(seen) => |c.stamps| == |c.files| && ReadsTaken(h, c.files, c.stampedAt, c.start, seen)
       case Returned(model, end, since) =>
         && |c.stamps| == |c.files| && StampsTaken(h, c.files, 0, c.stamps, since)
         && Fresh(h, c, model, end, since)
       case Failed => true
  }

  ghost predicate GoodEntry(h: seq<Disk>, e: Entry)
  {
    && |e.stamps| == |e.files|
    && StampsTaken(h, e.files, 0, e.stamps, e.stampedAt)
    && ReadsTaken(h, e.files, e.stampedAt, 0, e.model.seen)
    && e.model.key == e.key && e.model.files == e.files
  }

  ghost predicate Inv(s: State)
  {
    && s.Started()
    && ValidHistory(s.history)
    && (s.slot.Some? ==> GoodEntry(s.history, s.slot.value))
    && (forall id :: id in s.calls ==> GoodCall(s.history, s.calls[id]))
  }

  lemma ToldBefore(h: seq<Disk>, d: Disk, c: Call, path: Path, since: seq<nat>)
    requires Told(h + [d], c, path, since) && StampsTaken(h, c.files, c.start, c.stamps, c.stampedAt)
    ensures Told(h, c, path, since)
  {
    var i :| 0 <= i < |c.files| && i < |c.stamps| && i < |c.stampedAt| && i < |since|
             && c.files[i] == path && StampTells(h + [d], path, c.stamps[i], since[i], c.stampedAt[i]);
    assert forall k :: 0 <= k < |h| ==> (h + [d])[k] == h[k];
    assert StampTells(h, path, c.stamps[i], since[i], c.stampedAt[i]);
  }

  /** A longer history keeps every fact about the past. */
  lemma FactsKept(h: seq<Disk>, d: Disk, c: Call)
    requires GoodCall(h, c)
    ensures GoodCall(h + [d], c)
  {
    var g := h + [d];
    assert forall t :: 0 <= t < |h| ==> g[t] == h[t];
    if c.phase.Returned? {
      var model := c.phase.model;
      assert StampsTaken(g, c.files, 0, c.stamps, c.phase.since);
      forall r | 0 <= r < |model.seen| && Told(g, c, model.seen[r].path, c.phase.since)
        ensures OnDiskDuring(g, model.seen[r].path, model.seen[r].content, c.start, c.phase.end)
      {
        var rd := model.seen[r];
        ToldBefore(h, d, c, rd.path, c.phase.since);
        assert OnDiskDuring(h, rd.path, rd.content, c.start, c.phase.end);
        var t :| c.start <= t <= c.phase.end && t < |h| && ContentAt(h[t], rd.path) == rd.content;
        assert ContentAt(g[t], rd.path) == rd.content;
      }
    }
  }

  lemma EditKeepsInv(s: State, t: State)
    requires Inv(s) && ValidHistory(t.history) && t.slot == s.slot && t.calls == s.calls
    requires |t.history| == |s.history| + 1 && t.history[..|s.history|] == s.history
    ensures Inv(t)
  {
    assert t.history == s.history + [t.Disk()];
    forall id | id in t.calls ensures GoodCall(t.history, t.calls[id]) {
      FactsKept(s.history, t.Disk(), s.calls[id]);
    }
  }

  /** A hit is fresh: what the cached build read was still on disk when the caller stamped it, or was read later. */
  lemma HitIsFresh(h: seq<Disk>, e: Entry, c: Call, end: nat)
    requires ValidHistory(h) && GoodEntry(h, e) && end == |h| - 1
    requires GoodCall(h, c) && |c.stamps| == |c.files|
    requires CachedFor(Some(e), c.key, c.files, c.stamps).Some?
    ensures Fresh(h, c, e.model, end, e.stampedAt)
  {
    forall r | 0 <= r < |e.model.seen| && Told(h, c, e.model.seen[r].path, e.stampedAt)
      ensures OnDiskDuring(h, e.model.seen[r].path, e.model.seen[r].content, c.start, end)
    {
      var rd := e.model.seen[r];
      var i :| 0 <= i < |c.files| && i < |e.stampedAt| && c.files[i] == rd.path
               && StampTells(h, rd.path, c.stamps[i], e.stampedAt[i], c.stampedAt[i]);
      if rd.at <= c.stampedAt[i] {
        SameStampSameContent(h, rd.path, e.stampedAt[i], rd.at, c.stampedAt[i]);
        assert ContentAt(h[c.stampedAt[i]], rd.path) == rd.content;
      } else {
        assert ContentAt(h[rd.at], rd.path) == rd.content;
      }
    }
  }

  /** A miss is fresh whatever the stamps were: its own build read the files during the call. */
  lemma MissIsFresh(h: seq<Disk>, c: Call, end: nat)
    requires c.phase.Building? && GoodCall(h, c) && end == |h| - 1
    ensures Fresh(h, c, Built(c), end, c.stampedAt)
    ensures forall r :: 0 <= r < |c.phase.seen| ==>
              OnDiskDuring(h, c.phase.seen[r].path, c.phase.seen[r].content, c.start, end)
  {
    forall r | 0 <= r < |c.phase.seen|
      ensures OnDiskDuring(h, c.phase.seen[r].path, c.phase.seen[r].content, c.start, end)
    {
      assert ContentAt(h[c.phase.seen[r].at], c.phase.seen[r].path) == c.phase.seen[r].content;
    }
  }

  /** A step that changes one call, and perhaps the slot. */
  lemma CallKeepsInv(s: State, id: nat, c: Call, slot: Option<Entry>)
    requires Inv(s) && GoodCall(s.history, c) && (slot.Some? ==> GoodEntry(s.history, slot.value))
    ensures Inv(s.(slot := slot, calls := s.calls[id := c]))
  {
    hide GoodCall, GoodEntry, ValidHistory;
  }

  lemma TryHitKeepsInv(s: State, id: nat)
    requires Inv(s) && Enabled(s, TryHit(id))
    ensures Inv(Next(s, TryHit(id)))
  {
    var c := s.calls[id];
    if CachedFor(s.slot, c.key, c.files, c.stamps).Some? {
      HitIsFresh(s.history, s.slot.value, c, s.Now());
    }
    hide ValidHistory, Fresh;
    CallKeepsInv(s, id, c.(phase := AfterTryHit(s.slot, c, s.Now())), s.slot);
  }

  lemma StoreKeepsInv(s: State, id: nat)
    requires Inv(s) && Enabled(s, Store(id))
    ensures Inv(Next(s, Store(id)))
  {
    var c := s.calls[id];
    MissIsFresh(s.history, c, s.Now());
    hide ValidHistory, Fresh;
    CallKeepsInv(s, id, c.(phase := Returned(Built(c), s.Now(), c.stampedAt)),
                 Some(Entry(c.key, c.files, c.stamps, Built(c), c.stampedAt)));
  }

  lemma StepKeepsInv(s: State, step: Step)
    requires Inv(s) && Enabled(s, step)
    ensures Inv(Next(s, step))
  {
    var t := Next(s, step);
    match step
    case Write(p, v) =>
      WriteKeepsHistory(s.history, p, v);
      EditKeepsInv(s, t);
    case Delete(p) =>
      DeleteKeepsHistory(s.history, p);
      EditKeepsInv(s, t);
    case TryHit(id) => TryHitKeepsInv(s, id);
    case Store(id) => StoreKeepsInv(s, id);
    case Begin(id, _, _) => CallKeepsInv(s, id, t.calls[id], s.slot);
    case TakeStamp(id) => CallKeepsInv(s, id, t.calls[id], s.slot);
    case ReadFile(id, _) => CallKeepsInv(s, id, t.calls[id], s.slot);
    case BuildFails(id) => CallKeepsInv(s, id, t.calls[id], s.slot);
  }

  lemma {:induction false} RunKeepsInv(d: Disk, run: seq<Step>)
    requires After(d, run).Some?
    ensures Inv(After(d, run).value)
  {
    if run == [] {
      forall p, i: nat, k: nat, j: nat ensures OneVersion([d], p, i, k, j) {
      }
    } else {
      RunKeepsInv(d, run[..|run| - 1]);
      StepKeepsInv(After(d, run[..|run| - 1]).value, run[|run| - 1]);
    }
  }

  // ---------------------------------------------------------------------------
  // The results
  // ---------------------------------------------------------------------------

  /**
   * In every run, the model a call returns, hit or miss, was built for its key and file list, and each content
   * it used was on disk between the call's start and its return; of a file that the call found absent, unless the file
   * existed in between since the build found it absent.
   */
  lemma EveryReturnIsFresh(d: Disk, run: seq<Step>, s: State, id: nat)
    requires After(d, run) == Some(s)
    requires id in s.calls && s.calls[id].phase.Returned?
    ensures Fresh(s.history, s.calls[id], s.calls[id].phase.model, s.calls[id].phase.end, s.calls[id].phase.since)
  {
    RunKeepsInv(d, run);
  }

  /** Files whose stamp did not move since the cached build stamped them are served from the slot. */
  lemma UnchangedFilesHit(h: seq<Disk>, e: Entry, c: Call)
    requires GoodEntry(h, e) && GoodCall(h, c)
    requires c.key == e.key && c.files == e.files && |c.stamps| == |c.files|
    requires forall i :: 0 <= i < |c.files| ==>
               StampAt(h[c.stampedAt[i]], c.files[i]) == StampAt(h[e.stampedAt[i]], c.files[i])
    ensures AfterTryHit(Some(e), c, |h| - 1) == Returned(e.model, |h| - 1, e.stampedAt)
  {
    assert c.stamps == e.stamps;
  }

  lemma AfterNext(d: Disk, run: seq<Step>, s: State, step: Step) returns (longer: seq<Step>, t: State)
    requires After(d, run) == Some(s) && Enabled(s, step)
    ensures longer == run + [step] && t == Next(s, step) && After(d, longer) == Some(t)
  {
    longer, t := run + [step], Next(s, step);
    assert longer[..|longer| - 1] == run;
  }

  // ---------------------------------------------------------------------------
  // Absent files, exactly
  // ---------------------------------------------------------------------------

  /** Every content of `p` that the model of this call used was on disk during the call. */
  ghost predicate UsesFresh(h: seq<Disk>, c: Call, p: Path)
    requires c.phase.Returned?
  {
    forall r :: 0 <= r < |c.phase.model.seen| && c.phase.model.seen[r].path == p ==>
      OnDiskDuring(h, p, c.phase.model.seen[r].content, c.start, c.phase.end)
  }

  lemma NeverBriefIsFresh(h: seq<Disk>, c: Call, p: Path)
    requires GoodCall(h, c) && c.phase.Returned? && NeverBrief(h, p)
    ensures UsesFresh(h, c, p)
  {
    var model, since := c.phase.model, c.phase.since;
    forall r | 0 <= r < |model.seen| && model.seen[r].path == p
      ensures OnDiskDuring(h, p, model.seen[r].content, c.start, c.phase.end)
    {
      var i :| 0 <= i < |c.files| && c.files[i] == p;
      NeverBriefTells(h, p, c.stamps[i], since[i], c.stampedAt[i]);
      assert Told(h, c, p, since);
    }
  }

  /** Edits take a run along the history, and change nothing else. */
  lemma {:induction false} Advances(h: seq<Disk>, run: seq<Step>, s: State, t: nat)
      returns (longer: seq<Step>, s': State)
    requires IsEdited(h) && After(h[0], run) == Some(s)
    requires 1 <= |s.history| <= t <= |h| && s.history == h[..|s.history|]
    ensures After(h[0], longer) == Some(s') && s' == s.(history := h[..t])
    decreases t - |s.history|
  {
    hide After, ValidHistory;
    var n := |s.history|;
    if n == t {
      return run, s;
    }
    assert EditedAt(h, n) && s.Disk() == h[n - 1] && h[..n + 1] == h[..n] + [h[n]];
    if p, v :| WrittenAt(h, n, p, v) {
      longer, s' := AfterNext(h[0], run, s, Write(p, v));
    } else {
      var p :| DeletedAt(h, n, p);
      longer, s' := AfterNext(h[0], run, s, Delete(p));
    }
    longer, s' := Advances(h, longer, s', t);
  }

  /** A call for `p` alone that has stamped it while it is absent. */
  function Stamped(p: Path, i: nat): Call
  {
    Call(Key("", false), [p], i, [None], [i], Stamping)
  }

  lemma Stamps(h: seq<Disk>, p: Path, run: seq<Step>, s: State, id: nat) returns (longer: seq<Step>, t: State)
    requires |h| > 0 && After(h[0], run) == Some(s) && s.Started() && p !in s.Disk() && id !in s.calls
    ensures After(h[0], longer) == Some(t) && t == s.(calls := s.calls[id := Stamped(p, s.Now())])
  {
    hide After;
    longer, t := AfterNext(h[0], run, s, Begin(id, Key("", false), [p]));
    longer, t := AfterNext(h[0], longer, t, TakeStamp(id));
    assert t.calls[id] == Stamped(p, s.Now());
    assert t.calls == s.calls[id := Stamped(p, s.Now())];
  }

  /** A call that stamps `p` while it is absent and reads it while it exists. */
  lemma BuildDuringBriefLife(h: seq<Disk>, p: Path, i: nat, k: nat, j: nat) returns (run: seq<Step>, s: State)
    requires IsEdited(h) && Brief(h, p, i, k, j)
    ensures After(h[0], run) == Some(s) && s.history == h[..k + 1] && 1 !in s.calls
    ensures s.slot == Some(Entry(Key("", false), [p], [None],
                                 Model(Key("", false), [p], [Read(p, Some(h[k][p].content), k)]), [i]))
  {
    hide IsEdited, After;
    EditedStarts(h);
    run, s := [], State([h[0]], None, map[]);
    assert After(h[0], run) == Some(s) by { NothingRan(h[0]); }
    run, s := Advances(h, run, s, i + 1);
    run, s := Stamps(h, p, run, s, 0);
    run, s := AfterNext(h[0], run, s, TryHit(0));
    assert s.calls[0] == Stamped(p, i).(phase := Building([]));
    run, s := Advances(h, run, s, k + 1);
    run, s := AfterNext(h[0], run, s, ReadFile(0, p));
    assert s.calls[0].phase.seen == [Read(p, Some(h[k][p].content), k)];
    run, s := AfterNext(h[0], run, s, Store(0));
  }

  lemma NothingRan(d: Disk)
    ensures After(d, []) == Some(State([d], None, map[]))
  {
  }

  /**
   * Whenever a file exists only for a while, some run over just that history returns its content while it is absent.
   */
  lemma AbsentFileCanBeStale(h: seq<Disk>, p: Path, i: nat, k: nat, j: nat) returns (run: seq<Step>, s: State)
    requires IsEdited(h) && Brief(h, p, i, k, j)
    ensures After(h[0], run) == Some(s) && s.history == h
    ensures 1 in s.calls && s.calls[1].phase.Returned? && !UsesFresh(h, s.calls[1], p)
  {
    hide IsEdited, After;
    EditedStarts(h);
    run, s := BuildDuringBriefLife(h, p, i, k, j);
    run, s := Advances(h, run, s, j + 1);
    run, s := Stamps(h, p, run, s, 1);
    run, s := AfterNext(h[0], run, s, TryHit(1));
    run, s := Advances(h, run, s, |h|);
    assert h[..|h|] == h;
    assert s.calls[1].phase.model.seen[0] == Read(p, Some(h[k][p].content), k);
    assert !OnDiskDuring(h, p, Some(h[k][p].content), j, j);
  }

  ghost predicate AlwaysFresh(h: seq<Disk>, p: Path)
    requires |h| > 0
  {
    forall run, s: State, id :: After(h[0], run) == Some(s) && s.history == h && id in s.calls
        && s.calls[id].phase.Returned?
      ==> UsesFresh(h, s.calls[id], p)
  }

  /**
   * Over a history, all calls of all runs use fresh contents of a file exactly when it never existed only for a while.
   */
  lemma FreshIffNeverBrief(h: seq<Disk>, p: Path)
    requires IsEdited(h)
    ensures AlwaysFresh(h, p) <==> NeverBrief(h, p)
  {
    hide UsesFresh, IsEdited, After;
    EditedStarts(h);
    if NeverBrief(h, p) {
      forall run, s: State, id | After(h[0], run) == Some(s) && s.history == h && id in s.calls
          && s.calls[id].phase.Returned?
        ensures UsesFresh(h, s.calls[id], p)
      {
        RunKeepsInv(h[0], run);
        NeverBriefIsFresh(h, s.calls[id], p);
      }
    } else {
      var i, k, j :| Brief(h, p, i, k, j);
      var run, s := AbsentFileCanBeStale(h, p, i, k, j);
    }
  }

  // ---------------------------------------------------------------------------
  // Which model is returned
  // ---------------------------------------------------------------------------

  /** In step `k` a call finished its build and stored it. */
  ghost predicate StoresAt(d: Disk, run: seq<Step>, k: nat)
  {
    && k < |run| && run[k].Store? && After(d, run[..k]).Some? && run[k].id in After(d, run[..k]).value.calls
    && After(d, run[..k]).value.calls[run[k].id].phase.Building?
  }

  ghost predicate LastStoreAt(d: Disk, run: seq<Step>, k: nat)
  {
    StoresAt(d, run, k) && forall j :: k < j < |run| ==> !run[j].Store?
  }

  /** That call, about to store. */
  ghost function Storing(d: Disk, run: seq<Step>, k: nat): (c: Call)
    requires StoresAt(d, run, k)
    ensures c.phase.Building?
  {
    After(d, run[..k]).value.calls[run[k].id]
  }

  /** What a call that has built leaves in the slot. */
  function EntryOf(c: Call): Entry
    requires c.phase.Building?
  {
    Entry(c.key, c.files, c.stamps, Model(c.key, c.files, c.phase.seen), c.stampedAt)
  }

  /** The slot holds what the last call to store had built, with its key, list and stamps; it is empty before that. */
  ghost predicate SlotIsLastStore(d: Disk, run: seq<Step>, slot: Option<Entry>)
  {
    if forall j :: 0 <= j < |run| ==> !run[j].Store? then slot == None
    else exists k: nat :: LastStoreAt(d, run, k) && slot == Some(EntryOf(Storing(d, run, k)))
  }

  lemma StoreBefore(d: Disk, run: seq<Step>, k: nat)
    requires run != [] && k < |run| - 1
    ensures StoresAt(d, run[..|run| - 1], k) <==> StoresAt(d, run, k)
    ensures StoresAt(d, run, k) ==> Storing(d, run[..|run| - 1], k) == Storing(d, run, k)
  {
    hide After;
    assert run[..|run| - 1][..k] == run[..k];
  }

  lemma OtherStepsKeepSlot(s: State, step: Step)
    requires Enabled(s, step)
    ensures !step.Store? ==> Next(s, step).slot == s.slot
    ensures step.Store? ==> step.id in s.calls && s.calls[step.id].phase.Building?
                            && Next(s, step).slot == Some(EntryOf(s.calls[step.id]))
  {
    hide NewStamp;
  }

  lemma {:induction false} EverySlotIsLastStore(d: Disk, run: seq<Step>, s: State)
    requires After(d, run) == Some(s)
    ensures SlotIsLastStore(d, run, s.slot)
  {
    hide Enabled, Next;
    if run != [] {
      var before, step := run[..|run| - 1], run[|run| - 1];
      var p := After(d, before).value;
      EverySlotIsLastStore(d, before, p);
      OtherStepsKeepSlot(p, step);
      if step.Store? {
        assert LastStoreAt(d, run, |run| - 1) by { StoresNow(d, run, p); }
      } else if j :| 0 <= j < |run| && run[j].Store? {
        assert before[j].Store?;
        var k: nat :| LastStoreAt(d, before, k) && p.slot == Some(EntryOf(Storing(d, before, k)));
        StoreInside(d, before, k);
        StoreBefore(d, run, k);
        assert LastStoreAt(d, run, k);
      }
    }
  }

  lemma StoreInside(d: Disk, run: seq<Step>, k: nat)
    requires StoresAt(d, run, k)
    ensures k < |run| && run[k].Store?
  {
    hide After;
  }

  lemma StoresNow(d: Disk, run: seq<Step>, p: State)
    requires run != [] && After(d, run[..|run| - 1]) == Some(p) && run[|run| - 1].Store?
    requires run[|run| - 1].id in p.calls && p.calls[run[|run| - 1].id].phase.Building?
    ensures StoresAt(d, run, |run| - 1)
  {
    hide After;
  }

  /** The last call to store had the key, list and stamps of `c`, and built `model`. */
  ghost predicate Recalls(d: Disk, run: seq<Step>, k: nat, c: Call, model: Model)
  {
    && LastStoreAt(d, run, k)
    && var built := Storing(d, run, k);
       && (built.key, built.files, built.stamps) == (c.key, c.files, c.stamps)
       && model == Model(built.key, built.files, built.phase.seen)
  }

  /**
   * In every run, a call that has stamped its files returns a cached model exactly when the last call to store had its
   * key, list and stamps, and then the model that call built; otherwise it builds.
   */
  lemma HitIffLastStoreMatches(d: Disk, run: seq<Step>, s: State, id: nat, model: Model)
    requires After(d, run) == Some(s) && Enabled(s, TryHit(id))
    ensures id in s.calls && id in Next(s, TryHit(id)).calls
    ensures var c, t := s.calls[id], Next(s, TryHit(id)).calls[id];
            && (t.phase.Returned? || t.phase == Building([]))
            && (t.phase.Returned? && t.phase.model == model <==> exists k: nat :: Recalls(d, run, k, c, model))
  {
    hide After;
    EverySlotIsLastStore(d, run, s);
    var c := s.calls[id];
    if k: nat :| Recalls(d, run, k, c, model) {
      StoreInside(d, run, k);
      forall j: nat | LastStoreAt(d, run, j) ensures j == k {
        StoreInside(d, run, j);
      }
    }
    hide StoresAt;
    if CachedFor(s.slot, c.key, c.files, c.stamps).Some? {
      var k: nat :| LastStoreAt(d, run, k) && s.slot == Some(EntryOf(Storing(d, run, k)));
      assert Recalls(d, run, k, c, s.slot.value.model);
    }
  }

  /** A call that builds returns its own build, made of what it read; one whose build fails stores nothing. */
  lemma BuildReturnsOwn(s: State, id: nat)
    requires id in s.calls && s.calls[id].phase.Building? && s.Started()
    ensures Enabled(s, Store(id)) && Enabled(s, BuildFails(id))
    ensures var c, t := s.calls[id], Next(s, Store(id)).calls[id];
            t.phase.Returned? && t.phase.model == Model(c.key, c.files, c.phase.seen)
    ensures Next(s, BuildFails(id)).calls[id].phase == Failed && Next(s, BuildFails(id)).slot == s.slot
  {
  }

  /** A returned model is final, and only a call that builds can fail. */
  lemma ReturnsAreFinal(s: State, step: Step, id: nat)
    requires Enabled(s, step) && id in s.calls
    ensures id in Next(s, step).calls
    ensures var c, t := s.calls[id], Next(s, step).calls[id];
            && (c.phase.Returned? || c.phase.Failed? ==> t == c)
            && (t.phase.Failed? ==> c.phase.Failed? || c.phase.Building?)
  {
    hide NewStamp;
  }
}
