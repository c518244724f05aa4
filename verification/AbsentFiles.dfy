/** Exactly when absent config or registry files, which all look alike, make a cached answer of the daemon stale. */
module AbsentFiles {
  import opened Wrappers
  import opened FileHistory
  import opened ResultCache
  import opened DaemonRuns

  /** The instants at which a run was stamped, read one of its inputs and was stamped again, and of a later lookup. */
  datatype Schedule = Schedule(before: seq<nat>, seenAt: nat, rechecked: seq<nat>, found: seq<nat>)

  ghost predicate Ascending(at: seq<nat>)
  {
    |at| == 3 && at[0] <= at[1] <= at[2]
  }

  function StampsAt(c: Setup, h: seq<Disk>, file: Path, at: seq<nat>, k: nat): (stamps: seq<Option<Stamp>>)
    requires k <= 3 && |at| == 3 && forall i :: 0 <= i < 3 ==> at[i] < |h|
    ensures |stamps| == k
  {
    seq(k, i requires 0 <= i < k => StampAt(h[at[i]], Watched(c, file)[i]))
  }

  ghost predicate InOrder(h: seq<Disk>, t: Schedule)
  {
    && Ascending(t.before) && Ascending(t.rechecked) && Ascending(t.found)
    && t.before[2] <= t.seenAt <= t.rechecked[0] && t.rechecked[2] <= t.found[0] && t.found[2] < |h|
  }

  /**
   * The stamps of the existing file, its config and the registry are the same before the run, after it and at the
   * lookup; but config (1) or registry (2) was absent by its stamps and existed when the run read it.
   */
  ghost predicate Exposes(c: Setup, h: seq<Disk>, file: Path, w: nat, t: Schedule)
  {
    && 1 <= w <= 2 && InOrder(h, t)
    && StampsAt(c, h, file, t.before, 3) == StampsAt(c, h, file, t.rechecked, 3) == StampsAt(c, h, file, t.found, 3)
    && file in h[t.before[0]] && Watched(c, file)[w] !in h[t.before[w]] && Watched(c, file)[w] in h[t.seenAt]
  }

  /**
   * The answer is computed from a content of the `w`-th watched path that was not there when its stamp was looked up.
   */
  ghost predicate IsStale(c: Setup, h: seq<Disk>, r: Request, w: nat)
    requires w < 3
  {
    && r.phase.Hit? && |r.phase.stampsAt| == 3 && r.phase.stampsAt[w] < |h|
    && exists k :: 0 <= k < |r.phase.origin.seen| && r.phase.origin.seen[k].which == w
                   && r.phase.origin.seen[k].content != ContentAt(h[r.phase.stampsAt[w]], Watched(c, r.file)[w])
  }

  // ---------------------------------------------------------------------------
  // Nothing else makes an answer stale
  // ---------------------------------------------------------------------------

  lemma StaleIsExposed(c: Setup, h: seq<Disk>, r: Request, w: nat)
    requires w < 3 && r.phase.Hit? && HitIsCurrent(c, h, r) && IsStale(c, h, r, w)
    ensures exists t :: Exposes(c, h, r.file, w, t)
  {
    var o, at, paths := r.phase.origin, r.phase.stampsAt, Watched(c, r.file);
    var k :| 0 <= k < |o.seen| && o.seen[k].which == w && o.seen[k].content != ContentAt(h[at[w]], paths[w]);
    var t := Schedule(o.beforeAt, o.seen[k].at, o.recheckedAt, at);
    assert !StampTells(h, paths[w], r.phase.stamps[w], o.beforeAt[w], at[w]);
    TakenIs(c, h, r.file, r.phase.stamps, o.beforeAt, 0);
    TakenIs(c, h, r.file, r.phase.stamps, o.recheckedAt, 0);
    TakenIs(c, h, r.file, r.phase.stamps, at, r.beforeAt[2]);
    SeenBetween(h, paths, o, k);
    hide Watched, StampsAt, Taken, UpToGrace;
    assert Exposes(c, h, r.file, w, t);
  }

  lemma TakenIs(c: Setup, h: seq<Disk>, file: Path, stamps: seq<Option<Stamp>>, at: seq<nat>, start: nat)
    requires Taken(h, Watched(c, file), stamps, at, start) && |stamps| == 3
    ensures Ascending(at) && at[0] < |h| && at[1] < |h| && at[2] < |h| && StampsAt(c, h, file, at, 3) == stamps
    ensures forall i :: 0 <= i < 3 ==> stamps[i] == StampAt(h[at[i]], Watched(c, file)[i])
  {
  }

  lemma SeenBetween(h: seq<Disk>, paths: seq<Path>, o: Origin, k: nat)
    requires SeenAfter(h, paths, o.beforeAt, o.seen) && k < |o.seen| && |o.beforeAt| == |o.recheckedAt| == 3
    requires forall i :: 0 <= i < |o.recheckedAt| ==> SeenBefore(o.seen, o.recheckedAt[i])
    ensures o.beforeAt[2] <= o.seen[k].at <= o.recheckedAt[0]
    ensures o.seen[k].which < |paths| && o.seen[k].at < |h|
    ensures o.seen[k].content == ContentAt(h[o.seen[k].at], paths[o.seen[k].which])
  {
  }

  // ---------------------------------------------------------------------------
  // Building a run along a history
  // ---------------------------------------------------------------------------

  ghost predicate Ends(c: Setup, d: Disk, run: seq<Step>, s: State)
  {
    After(c, d, run) == Some(s)
  }

  lemma Extend(c: Setup, d: Disk, run: seq<Step>, s: State, step: Step) returns (longer: seq<Step>)
    requires Ends(c, d, run, s) && Enabled(s, step)
    ensures Ends(c, d, longer, Next(c, s, step))
  {
    longer := run + [step];
    assert longer[..|longer| - 1] == run;
  }

  /** The state at instant `t` of the history. */
  ghost function On(s: State, h: seq<Disk>, t: nat): State
    requires t < |h|
  {
    s.(history := h[..t + 1])
  }

  /** The state with one request in another phase. */
  function With(s: State, id: nat, r: Request): State
  {
    s.(requests := s.requests[id := r])
  }

  lemma WithTwice(s: State, id: nat, q: Request, r: Request)
    ensures With(With(s, id, q), id, r) == With(s, id, r)
  {
  }

  /** Edits take a run along the history, and change nothing else. */
  lemma {:induction false} Advances(c: Setup, h: seq<Disk>, run: seq<Step>, s: State, t: nat, u: nat)
      returns (longer: seq<Step>)
    requires IsEdited(h) && t <= u < |h| && Ends(c, h[0], run, On(s, h, t))
    ensures Ends(c, h[0], longer, On(s, h, u))
    decreases u - t
  {
    hide Ends, ValidHistory;
    if t == u {
      return run;
    }
    var n := t + 1;
    assert EditedAt(h, n) && h[..n + 1] == h[..n] + [h[n]];
    var now := On(s, h, t);
    if p, v :| WrittenAt(h, n, p, v) {
      longer := Extend(c, h[0], run, now, Write(p, v));
      assert Next(c, now, Write(p, v)) == On(s, h, n);
    } else {
      var p :| DeletedAt(h, n, p);
      longer := Extend(c, h[0], run, now, Delete(p));
      assert Next(c, now, Delete(p)) == On(s, h, n);
    }
    longer := Advances(c, h, longer, s, t + 1, u);
  }

  lemma OnWith(s: State, h: seq<Disk>, t: nat, id: nat, r: Request)
    requires t < |h|
    ensures On(With(s, id, r), h, t) == With(On(s, h, t), id, r)
    ensures |On(s, h, t).history| == t + 1 && On(s, h, t).history[t] == h[t]
  {
  }

  lemma NextStamp(c: Setup, h: seq<Disk>, file: Path, at: seq<nat>, k: nat)
    requires k < 3 && |at| == 3 && forall i :: 0 <= i < 3 ==> at[i] < |h|
    ensures StampsAt(c, h, file, at, k) + [StampAt(h[at[k]], Watched(c, file)[k])] == StampsAt(c, h, file, at, k + 1)
    ensures at[..k] + [at[k]] == at[..k + 1] && at[..3] == at
  {
  }

  /** Stamping the remaining paths, each at its instant. */
  lemma {:induction false} Captures(c: Setup, h: seq<Disk>, run: seq<Step>, s: State, id: nat, r: Request, at: seq<nat>,
                                    k: nat, t: nat)
    returns (longer: seq<Step>)
    requires IsEdited(h) && Ascending(at) && at[2] < |h| && k < 3 && t <= at[k]
    requires r.phase == Capturing && r.before == StampsAt(c, h, r.file, at, k) && r.beforeAt == at[..k]
    requires Ends(c, h[0], run, On(With(s, id, r), h, t))
    ensures Ends(c, h[0], longer,
                 On(With(s, id, r.(before := StampsAt(c, h, r.file, at, 3), beforeAt := at, phase := Ready)), h, at[2]))
    decreases 3 - k
  {
    hide Ends, IsEdited, StampsAt, Watched;
    longer := Advances(c, h, run, With(s, id, r), t, at[k]);
    longer := CapturesOne(c, h, longer, s, id, r, at, k);
    NextStamp(c, h, r.file, at, k);
    if k < 2 {
      longer := Captures(c, h, longer, s, id, r.(before := StampsAt(c, h, r.file, at, k + 1), beforeAt := at[..k + 1]),
                         at, k + 1, at[k]);
    }
  }

  lemma CapturesOne(c: Setup, h: seq<Disk>, run: seq<Step>, s: State, id: nat, r: Request, at: seq<nat>, k: nat)
      returns (longer: seq<Step>)
    requires Ascending(at) && at[2] < |h| && k < 3
    requires r.phase == Capturing && r.before == StampsAt(c, h, r.file, at, k) && r.beforeAt == at[..k]
    requires Ends(c, h[0], run, On(With(s, id, r), h, at[k]))
    ensures Ends(c, h[0], longer,
                 On(With(s, id, r.(before := StampsAt(c, h, r.file, at, k + 1), beforeAt := at[..k + 1],
                                                    phase := if k == 2 then Ready else Capturing)), h, at[k]))
  {
    hide Ends, StampsAt, Watched;
    var now := On(With(s, id, r), h, at[k]);
    OnWith(s, h, at[k], id, r);
    NextStamp(c, h, r.file, at, k);
    longer := Extend(c, h[0], run, now, Capture(id));
    WithTwice(On(s, h, at[k]), id, r, Next(c, now, Capture(id)).requests[id]);
  }

  /** Looking for the remaining stamps, each at its instant. */
  lemma {:induction false} Finds(c: Setup, h: seq<Disk>, run: seq<Step>, s: State, id: nat, r: Request, at: seq<nat>,
                                 k: nat, t: nat)
    returns (longer: seq<Step>)
    requires IsEdited(h) && Ascending(at) && at[2] < |h| && k < 3 && t <= at[k]
    requires r.phase == Getting(StampsAt(c, h, r.file, at, k), at[..k])
    requires Ends(c, h[0], run, On(With(s, id, r), h, t))
    ensures Ends(c, h[0], longer, On(With(s, id, r.(phase := Getting(StampsAt(c, h, r.file, at, 3), at))), h, at[2]))
    decreases 3 - k
  {
    hide Ends, IsEdited, StampsAt, Watched;
    longer := Advances(c, h, run, With(s, id, r), t, at[k]);
    longer := FindsOne(c, h, longer, s, id, r, at, k);
    NextStamp(c, h, r.file, at, k);
    if k < 2 {
      longer := Finds(c, h, longer, s, id, r.(phase := Getting(StampsAt(c, h, r.file, at, k + 1), at[..k + 1])), at,
                      k + 1, at[k]);
    }
  }

  lemma FindsOne(c: Setup, h: seq<Disk>, run: seq<Step>, s: State, id: nat, r: Request, at: seq<nat>, k: nat)
      returns (longer: seq<Step>)
    requires Ascending(at) && at[2] < |h| && k < 3
    requires r.phase == Getting(StampsAt(c, h, r.file, at, k), at[..k])
    requires Ends(c, h[0], run, On(With(s, id, r), h, at[k]))
    ensures Ends(c, h[0], longer,
                 On(With(s, id, r.(phase := Getting(StampsAt(c, h, r.file, at, k + 1), at[..k + 1]))), h, at[k]))
  {
    hide Ends, StampsAt, Watched;
    var now := On(With(s, id, r), h, at[k]);
    OnWith(s, h, at[k], id, r);
    NextStamp(c, h, r.file, at, k);
    longer := Extend(c, h[0], run, now, FindStamp(id));
    WithTwice(On(s, h, at[k]), id, r, Next(c, now, FindStamp(id)).requests[id]);
  }

  /** Comparing the remaining stamps, each at its instant. */
  lemma {:induction false} Rechecks(c: Setup, h: seq<Disk>, run: seq<Step>, s: State, id: nat, r: Request, at: seq<nat>,
                                    k: nat, t: nat)
    returns (longer: seq<Step>)
    requires IsEdited(h) && Ascending(at) && at[2] < |h| && k < 3 && t <= at[k]
    requires r.phase.Putting? && r.phase.rechecked == StampsAt(c, h, r.file, at, k) && r.phase.recheckedAt == at[..k]
    requires Ends(c, h[0], run, On(With(s, id, r), h, t))
    ensures Ends(c, h[0], longer, On(With(s, id, Rechecked(r, StampsAt(c, h, r.file, at, 3), at)), h, at[2]))
    decreases 3 - k
  {
    hide Ends, IsEdited, StampsAt, Watched;
    longer := Advances(c, h, run, With(s, id, r), t, at[k]);
    longer := RechecksOne(c, h, longer, s, id, r, at, k);
    NextStamp(c, h, r.file, at, k);
    if k < 2 {
      longer := Rechecks(c, h, longer, s, id, Rechecked(r, StampsAt(c, h, r.file, at, k + 1), at[..k + 1]), at,
                         k + 1, at[k]);
    }
  }

  function Rechecked(r: Request, stamps: seq<Option<Stamp>>, at: seq<nat>): Request
    requires r.phase.Putting?
  {
    r.(phase := Putting(r.phase.results, stamps, at, r.phase.lockedAt))
  }

  lemma RechecksOne(c: Setup, h: seq<Disk>, run: seq<Step>, s: State, id: nat, r: Request, at: seq<nat>, k: nat)
      returns (longer: seq<Step>)
    requires Ascending(at) && at[2] < |h| && k < 3
    requires r.phase.Putting? && r.phase.rechecked == StampsAt(c, h, r.file, at, k) && r.phase.recheckedAt == at[..k]
    requires Ends(c, h[0], run, On(With(s, id, r), h, at[k]))
    ensures Ends(c, h[0], longer,
                 On(With(s, id, Rechecked(r, StampsAt(c, h, r.file, at, k + 1), at[..k + 1])), h, at[k]))
  {
    hide Ends, StampsAt, Watched;
    var now := On(With(s, id, r), h, at[k]);
    OnWith(s, h, at[k], id, r);
    NextStamp(c, h, r.file, at, k);
    longer := Extend(c, h[0], run, now, Recheck(id));
    WithTwice(On(s, h, at[k]), id, r, Next(c, now, Recheck(id)).requests[id]);
  }

  // ---------------------------------------------------------------------------
  // The steps of a request that is not scoped
  // ---------------------------------------------------------------------------

  function Coming(file: Path): Request
  {
    Request(file, "edit", false, [], [], [], Capturing)
  }

  lemma Arrives(c: Setup, h: seq<Disk>, run: seq<Step>, s: State, id: nat, file: Path, t: nat)
      returns (longer: seq<Step>)
    requires t < |h| && id !in s.requests && Ends(c, h[0], run, On(s, h, t))
    ensures Ends(c, h[0], longer, On(With(s, id, Coming(file)), h, t))
  {
    hide Ends;
    longer := Extend(c, h[0], run, On(s, h, t), Arrive(id, file, "edit", false));
  }

  lemma Reads(c: Setup, h: seq<Disk>, run: seq<Step>, s: State, id: nat, r: Request, w: nat, t: nat)
      returns (longer: seq<Step>)
    requires t < |h| && 1 <= w <= 2 && r.phase == Ready && Ends(c, h[0], run, On(With(s, id, r), h, t))
    ensures Ends(c, h[0], longer,
                 On(With(s, id, r.(seen := r.seen + [Seen(w, ContentAt(h[t], Watched(c, r.file)[w]), t)])), h, t))
  {
    hide Ends, Watched;
    var now := On(With(s, id, r), h, t);
    OnWith(s, h, t, id, r);
    longer := Extend(c, h[0], run, now, See(id, w));
    WithTwice(On(s, h, t), id, r, Next(c, now, See(id, w)).requests[id]);
  }

  lemma Locks(c: Setup, h: seq<Disk>, run: seq<Step>, s: State, id: nat, r: Request, t: nat) returns (longer: seq<Step>)
    requires t < |h| && s.lock == None && r.phase == Ready && !r.scoped && Ends(c, h[0], run, On(With(s, id, r), h, t))
    ensures Ends(c, h[0], longer, On(With(s.(lock := Some(id)), id, r.(phase := Getting([], []))), h, t))
  {
    hide Ends;
    var now := On(With(s, id, r), h, t);
    OnWith(s, h, t, id, r);
    longer := Extend(c, h[0], run, now, LockToGet(id));
    WithTwice(On(s, h, t), id, r, Next(c, now, LockToGet(id)).requests[id]);
  }

  lemma Replies(c: Setup, h: seq<Disk>, run: seq<Step>, s: State, id: nat, r: Request, t: nat)
      returns (longer: seq<Step>)
    requires t < |h| && r.phase.Getting? && |r.phase.found| == 3 && Ends(c, h[0], run, On(With(s, id, r), h, t))
    ensures Ends(c, h[0], longer, On(With(s.(lock := None), id, AfterReply(c, s.entries, s.origins, r)), h, t))
  {
    hide Ends, AfterReply;
    var now := On(With(s, id, r), h, t);
    OnWith(s, h, t, id, r);
    longer := Extend(c, h[0], run, now, Reply(id));
    WithTwice(On(s, h, t), id, r, Next(c, now, Reply(id)).requests[id]);
  }

  function Puts(c: Setup, s: State, r: Request, t: nat): Request
  {
    r.(phase := Putting(Graced(c, s.pending, r).1, [], [], t))
  }

  lemma StartsToPut(c: Setup, h: seq<Disk>, run: seq<Step>, s: State, id: nat, r: Request, t: nat)
      returns (longer: seq<Step>)
    requires t < |h| && s.lock == None && r.phase == Running && Ends(c, h[0], run, On(With(s, id, r), h, t))
    ensures Ends(c, h[0], longer,
                 On(With(s.(lock := Some(id), pending := Graced(c, s.pending, r).0), id, Puts(c, s, r, t)), h, t))
  {
    hide Ends, Graced;
    var now := On(With(s, id, r), h, t);
    OnWith(s, h, t, id, r);
    longer := Extend(c, h[0], run, now, LockToPut(id));
    WithTwice(On(s, h, t), id, r, Next(c, now, LockToPut(id)).requests[id]);
  }

  /** The entry and its origin when `r` is stored. */
  function Stored(r: Request): CacheEntry
    requires r.phase.Putting? && |r.before| == 3 && r.before[0].Some?
  {
    CacheEntry(r.before[0].value, r.before[1], r.before[2], r.trigger, r.phase.results)
  }

  function OriginOf(r: Request): Origin
    requires r.phase.Putting?
  {
    Origin(r.scoped, r.beforeAt, r.phase.recheckedAt, r.seen)
  }

  lemma Finishes(c: Setup, h: seq<Disk>, run: seq<Step>, s: State, id: nat, r: Request, t: nat)
      returns (longer: seq<Step>)
    requires t < |h| && r.phase.Putting? && |r.before| == 3 && !r.scoped && r.before[0].Some?
             && r.before == r.phase.rechecked
    requires Ends(c, h[0], run, On(With(s, id, r), h, t))
    ensures Ends(c, h[0], longer,
                 On(With(s.(lock := None, entries := s.entries[r.file := Stored(r)],
                            origins := s.origins[r.file := OriginOf(r)]),
                         id, r.(phase := Ran(r.phase.results))), h, t))
  {
    hide Ends;
    var now := On(With(s, id, r), h, t);
    OnWith(s, h, t, id, r);
    longer := Extend(c, h[0], run, now, Finish(id));
    assert EntriesAfter(c, s.entries, r) == s.entries[r.file := Stored(r)];
    WithTwice(On(s, h, t), id, r, Next(c, now, Finish(id)).requests[id]);
  }

  /** A request that has its stamps. */
  function Prepared(c: Setup, h: seq<Disk>, file: Path, at: seq<nat>, seen: seq<Seen>): Request
    requires |at| == 3 && forall i :: 0 <= i < 3 ==> at[i] < |h|
  {
    Request(file, "edit", false, StampsAt(c, h, file, at, 3), at, seen, Ready)
  }

  lemma Asks(c: Setup, h: seq<Disk>, run: seq<Step>, s: State, id: nat, file: Path, at: seq<nat>, t: nat)
      returns (longer: seq<Step>)
    requires IsEdited(h) && Ascending(at) && at[2] < |h| && t <= at[0] && id !in s.requests
             && Ends(c, h[0], run, On(s, h, t))
    ensures Ends(c, h[0], longer, On(With(s, id, Prepared(c, h, file, at, [])), h, at[2]))
  {
    hide Ends, IsEdited, Watched, With, On;
    longer := Arrives(c, h, run, s, id, file, t);
    longer := Captures(c, h, longer, s, id, Coming(file), at, 0, t);
  }

  lemma LooksUp(c: Setup, h: seq<Disk>, run: seq<Step>, s: State, id: nat, r: Request, at: seq<nat>, t: nat)
      returns (longer: seq<Step>)
    requires IsEdited(h) && Ascending(at) && at[2] < |h| && t <= at[0]
    requires s.lock == None && r.phase == Ready && !r.scoped && Ends(c, h[0], run, On(With(s, id, r), h, t))
    ensures Ends(c, h[0], longer,
                 On(With(s, id, AfterReply(c, s.entries, s.origins,
                                           r.(phase := Getting(StampsAt(c, h, r.file, at, 3), at)))), h, at[2]))
  {
    hide Ends, IsEdited, Watched, With, On, AfterReply;
    longer := Locks(c, h, run, s, id, r, t);
    var held, start := s.(lock := Some(id)), r.(phase := Getting([], []));
    assert StampsAt(c, h, r.file, at, 0) == [];
    longer := Finds(c, h, longer, held, id, start, at, 0, t);
    longer := Replies(c, h, longer, held, id, start.(phase := Getting(StampsAt(c, h, r.file, at, 3), at)), at[2]);
    assert held.(lock := None) == s;
  }

  /** The state after storing the result of `r`, and what becomes of the pending map. */
  function Saved(c: Setup, s: State, r: Request): State
    requires r.phase.Putting? && |r.before| == 3 && r.before[0].Some?
  {
    s.(entries := s.entries[r.file := Stored(r)], origins := s.origins[r.file := OriginOf(r)],
       pending := Graced(c, s.pending, r).0)
  }

  lemma Saves(c: Setup, h: seq<Disk>, run: seq<Step>, s: State, id: nat, r: Request, at: seq<nat>, t: nat)
    returns (longer: seq<Step>, put: Request)
    requires IsEdited(h) && Ascending(at) && at[2] < |h| && t <= at[0] && s.lock == None && r.phase == Running
             && !r.scoped
    requires r.before == StampsAt(c, h, r.file, at, 3) && r.before[0].Some?
             && Ends(c, h[0], run, On(With(s, id, r), h, t))
    ensures put.phase.Putting? && put == r.(phase := Putting(put.phase.results, r.before, at, t))
    ensures Ends(c, h[0], longer,
                 On(With(Saved(c, s, r.(phase := put.phase)), id, put.(phase := Ran(put.phase.results))), h, at[2]))
  {
    hide Ends, IsEdited, Watched, With, On, Graced;
    longer := StartsToPut(c, h, run, s, id, r, t);
    var held := s.(lock := Some(id), pending := Graced(c, s.pending, r).0);
    assert StampsAt(c, h, r.file, at, 0) == [];
    longer := Rechecks(c, h, longer, held, id, Puts(c, s, r, t), at, 0, t);
    put := Rechecked(Puts(c, s, r, t), StampsAt(c, h, r.file, at, 3), at);
    longer := Finishes(c, h, longer, held, id, put, at[2]);
    GracedIgnoresPhase(c, s, r, put.phase);
  }

  lemma GracedIgnoresPhase(c: Setup, s: State, r: Request, phase: Phase)
    ensures Graced(c, s.pending, r.(phase := phase)) == Graced(c, s.pending, r)
  {
  }

  // ---------------------------------------------------------------------------
  // Every exposed read makes some answer stale
  // ---------------------------------------------------------------------------

  const NOTHING_YET: State := State([], map[], map[], map[], None, map[])

  lemma Begins(c: Setup, h: seq<Disk>)
    requires |h| > 0
    ensures Ends(c, h[0], [], On(NOTHING_YET, h, 0))
  {
    assert h[..1] == [h[0]];
  }

  lemma Misses(c: Setup, s: State, r: Request)
    requires r.phase.Getting? && |r.phase.found| == 3 && r.file !in s.entries
    ensures AfterReply(c, s.entries, s.origins, r) == r.(phase := Running)
  {
  }

  /** The first request, up to being about to run: it read the `w`-th path at `seenAt`. */
  lemma ReadsExposed(c: Setup, h: seq<Disk>, file: Path, w: nat, before: seq<nat>, seenAt: nat) returns (run: seq<Step>)
    requires IsEdited(h) && 1 <= w <= 2 && Ascending(before) && before[2] <= seenAt < |h|
    ensures Ends(c, h[0], run,
                 On(With(NOTHING_YET, 0, Read(c, h, file, w, before, seenAt).(phase := Running)), h, seenAt))
  {
    hide Ends, IsEdited, StampsAt, Watched, On, AfterReply;
    Begins(c, h);
    var s := NOTHING_YET;
    run := Asks(c, h, [], s, 0, file, before, 0);
    run := Advances(c, h, run, With(s, 0, Prepared(c, h, file, before, [])), before[2], seenAt);
    run := Reads(c, h, run, s, 0, Prepared(c, h, file, before, []), w, seenAt);
    var r := Read(c, h, file, w, before, seenAt);
    assert Prepared(c, h, file, before, []).(seen := [] + r.seen) == r;
    var at := [seenAt, seenAt, seenAt];
    run := LooksUp(c, h, run, s, 0, r, at, seenAt);
    Misses(c, s, r.(phase := Getting(StampsAt(c, h, file, at, 3), at)));
  }

  function Read(c: Setup, h: seq<Disk>, file: Path, w: nat, before: seq<nat>, seenAt: nat): Request
    requires w < 3 && |before| == 3 && seenAt < |h| && forall i :: 0 <= i < 3 ==> before[i] < |h|
  {
    Prepared(c, h, file, before, [Seen(w, ContentAt(h[seenAt], Watched(c, file)[w]), seenAt)])
  }

  lemma FileIsStamped(c: Setup, h: seq<Disk>, file: Path, w: nat, t: Schedule)
    requires Exposes(c, h, file, w, t)
    ensures StampsAt(c, h, file, t.before, 3)[0].Some?
  {
  }

  /** Its result is stored. */
  lemma StoresExposed(c: Setup, h: seq<Disk>, file: Path, w: nat, t: Schedule)
      returns (run: seq<Step>, s: State, e: CacheEntry)
    requires IsEdited(h) && Exposes(c, h, file, w, t)
    ensures Ends(c, h[0], run, On(s, h, t.rechecked[2])) && s.lock == None && 1 !in s.requests
    ensures s.entries == map[file := e] && e.trigger == "edit" && EntryStamps(e) == StampsAt(c, h, file, t.before, 3)
    ensures s.origins == map[file := Origin(false, t.before, t.rechecked, Read(c, h, file, w, t.before, t.seenAt).seen)]
  {
    hide Ends, IsEdited, Watched, On, Graced;
    run := ReadsExposed(c, h, file, w, t.before, t.seenAt);
    FileIsStamped(c, h, file, w, t);
    var r := Read(c, h, file, w, t.before, t.seenAt).(phase := Running);
    var put;
    run, put := Saves(c, h, run, NOTHING_YET, 0, r, t.rechecked, t.seenAt);
    e := Stored(put);
    s := With(Saved(c, NOTHING_YET, r.(phase := put.phase)), 0, put.(phase := Ran(put.phase.results)));
  }

  lemma Hits(c: Setup, s: State, r: Request, e: CacheEntry)
    requires r.phase.Getting? && |r.phase.found| == 3 && r.file in s.entries && s.entries[r.file] == e
             && r.file in s.origins
    requires e.trigger == r.trigger && EntryStamps(e) == r.phase.found
    ensures AfterReply(c, s.entries, s.origins, r)
            == r.(phase := Hit(e.results, s.origins[r.file], r.phase.found, r.phase.foundAt))
  {
    assert EntryStamps(e)[0] == r.phase.found[0] && EntryStamps(e)[1] == r.phase.found[1]
           && EntryStamps(e)[2] == r.phase.found[2];
  }

  /** The read makes some answer stale, in a run over just this history. */
  lemma ExposedIsStale(c: Setup, h: seq<Disk>, file: Path, w: nat, t: Schedule) returns (run: seq<Step>, s: State)
    requires IsEdited(h) && Exposes(c, h, file, w, t)
    ensures After(c, h[0], run) == Some(s) && s.history == h
    ensures 1 in s.requests && s.requests[1].file == file && IsStale(c, h, s.requests[1], w)
  {
    hide Ends, IsEdited, Watched, On, With, StampsAt, IsStale, EntryStamps;
    var e;
    run, s, e := StoresExposed(c, h, file, w, t);
    run := AnswersExposed(c, h, file, w, t, run, s, e);
    var q := LastAnswer(c, h, file, w, t, e);
    run := Advances(c, h, run, With(s, 1, q), t.found[2], |h| - 1);
    AnswerIsStale(c, h, file, w, t, e);
    s := Finally(c, h, run, s, 1, q);
  }

  lemma Finally(c: Setup, h: seq<Disk>, run: seq<Step>, s: State, id: nat, r: Request) returns (last: State)
    requires |h| > 0 && Ends(c, h[0], run, On(With(s, id, r), h, |h| - 1))
    ensures After(c, h[0], run) == Some(last) && last.history == h && id in last.requests && last.requests[id] == r
    ensures last.entries == s.entries
  {
    hide After;
    last := On(With(s, id, r), h, |h| - 1);
    assert h[..|h|] == h;
  }

  lemma AnswerIsStale(c: Setup, h: seq<Disk>, file: Path, w: nat, t: Schedule, e: CacheEntry)
    requires Exposes(c, h, file, w, t)
    ensures IsStale(c, h, LastAnswer(c, h, file, w, t, e), w)
  {
    var q := LastAnswer(c, h, file, w, t, e);
    assert q.phase.origin.seen[0].which == w;
    ExposedIsBrief(c, h, file, w, t);
  }

  lemma ExposedIsBrief(c: Setup, h: seq<Disk>, file: Path, w: nat, t: Schedule)
    requires Exposes(c, h, file, w, t)
    ensures Brief(h, Watched(c, file)[w], t.before[w], t.seenAt, t.found[w]) && !NeverBrief(h, Watched(c, file)[w])
  {
    assert StampsAt(c, h, file, t.found, 3)[w] == StampsAt(c, h, file, t.before, 3)[w];
    var i, k, j := t.before[w], t.seenAt, t.found[w];
    assert Brief(h, Watched(c, file)[w], i, k, j);
  }

  /** The second request. */
  function LastAnswer(c: Setup, h: seq<Disk>, file: Path, w: nat, t: Schedule, e: CacheEntry): Request
    requires w < 3 && |t.before| == |t.found| == 3 && t.seenAt < |h|
    requires forall i :: 0 <= i < 3 ==> t.before[i] < |h| && t.found[i] < |h|
  {
    var n := t.found[0];
    Prepared(c, h, file, [n, n, n], []).(
      phase := Hit(e.results, Origin(false, t.before, t.rechecked, Read(c, h, file, w, t.before, t.seenAt).seen),
                   StampsAt(c, h, file, t.found, 3), t.found))
  }

  lemma AnswersExposed(c: Setup, h: seq<Disk>, file: Path, w: nat, t: Schedule, run: seq<Step>, s: State, e: CacheEntry)
    returns (longer: seq<Step>)
    requires IsEdited(h) && Exposes(c, h, file, w, t) && Ends(c, h[0], run, On(s, h, t.rechecked[2])) && s.lock == None
             && 1 !in s.requests
    requires s.entries == map[file := e] && e.trigger == "edit" && EntryStamps(e) == StampsAt(c, h, file, t.before, 3)
    requires s.origins
             == map[file := Origin(false, t.before, t.rechecked, Read(c, h, file, w, t.before, t.seenAt).seen)]
    ensures Ends(c, h[0], longer, On(With(s, 1, LastAnswer(c, h, file, w, t, e)), h, t.found[2]))
  {
    hide Ends, IsEdited, Watched, On, AfterReply, With, EntryStamps, StampsAt;
    var n := t.found[0];
    var r := Prepared(c, h, file, [n, n, n], []);
    longer := Asks(c, h, run, s, 1, file, [n, n, n], t.rechecked[2]);
    longer := LooksUp(c, h, longer, s, 1, r, t.found, n);
    Hits(c, s, r.(phase := Getting(StampsAt(c, h, file, t.found, 3), t.found)), e);
  }

  ghost predicate SomeStale(c: Setup, h: seq<Disk>, file: Path, w: nat)
    requires |h| > 0 && w < 3
  {
    exists run, s: State, id :: After(c, h[0], run) == Some(s) && s.history == h && id in s.requests
                                && s.requests[id].file == file && IsStale(c, h, s.requests[id], w)
  }

  /**
   * Over a history, some run answers with a stale content exactly when some schedule of a run and a lookup exposes it.
   */
  lemma StaleIffExposed(c: Setup, h: seq<Disk>, file: Path, w: nat)
    requires IsEdited(h) && w < 3
    ensures SomeStale(c, h, file, w) <==> exists t :: Exposes(c, h, file, w, t)
  {
    hide After, IsStale, Exposes, IsEdited, HitIsCurrent;
    assert |h| > 0 by { EditedStarts(h); }
    if SomeStale(c, h, file, w) {
      var run, s, id :| After(c, h[0], run) == Some(s) && s.history == h && id in s.requests
                        && s.requests[id].file == file && IsStale(c, h, s.requests[id], w);
      StaleIsHit(c, h, s.requests[id], w);
      EveryHitIsCurrent(c, h[0], run, s, id);
      StaleIsExposed(c, h, s.requests[id], w);
    }
    if t :| Exposes(c, h, file, w, t) {
      var run, s := ExposedIsStale(c, h, file, w, t);
    }
  }

  lemma StaleIsHit(c: Setup, h: seq<Disk>, r: Request, w: nat)
    requires w < 3 && IsStale(c, h, r, w)
    ensures r.phase.Hit?
  {
  }

  /** Without a file that exists only for a while, no answer is stale. */
  lemma NeverBriefIsNeverStale(c: Setup, h: seq<Disk>, file: Path, w: nat)
    requires IsEdited(h) && w < 3 && NeverBrief(h, Watched(c, file)[w])
    ensures !SomeStale(c, h, file, w)
  {
    hide SomeStale, IsEdited, Exposes, NeverBrief, Watched;
    StaleIffExposed(c, h, file, w);
    if t :| Exposes(c, h, file, w, t) {
      ExposedIsBrief(c, h, file, w, t);
    }
  }

  /**
   * With the file and the other watched path left alone, some answer is stale exactly when
   * the path existed for a while.
   */
  lemma StaleIffBrief(c: Setup, h: seq<Disk>, file: Path, w: nat)
    requires IsEdited(h) && 1 <= w <= 2 && file in h[0]
    requires forall u, t :: 0 <= u < 3 && u != w && 0 <= t < |h|
               ==> StampAt(h[t], Watched(c, file)[u]) == StampAt(h[0], Watched(c, file)[u])
    ensures SomeStale(c, h, file, w) <==> !NeverBrief(h, Watched(c, file)[w])
  {
    hide SomeStale, IsEdited;
    if NeverBrief(h, Watched(c, file)[w]) {
      NeverBriefIsNeverStale(c, h, file, w);
    } else {
      var i, k, j :| Brief(h, Watched(c, file)[w], i, k, j);
      BriefExposes(c, h, file, w, i, k, j);
      StaleIffExposed(c, h, file, w);
    }
  }

  lemma BriefExposes(c: Setup, h: seq<Disk>, file: Path, w: nat, i: nat, k: nat, j: nat)
    requires 1 <= w <= 2 && Brief(h, Watched(c, file)[w], i, k, j) && file in h[0]
    requires forall u, t :: 0 <= u < 3 && u != w && 0 <= t < |h|
               ==> StampAt(h[t], Watched(c, file)[u]) == StampAt(h[0], Watched(c, file)[u])
    ensures Exposes(c, h, file, w, Schedule([i, i, i], k, [j, j, j], [j, j, j]))
  {
    forall u | 0 <= u < 3 ensures StampAt(h[i], Watched(c, file)[u]) == StampAt(h[j], Watched(c, file)[u]) {
    }
    assert StampAt(h[i], Watched(c, file)[0]) == StampAt(h[0], Watched(c, file)[0]);
    assert StampsAt(c, h, file, [i, i, i], 3) == StampsAt(c, h, file, [j, j, j], 3);
    assert [i, i, i][w] == i;
  }
}
