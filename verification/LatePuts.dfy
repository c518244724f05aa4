/** Exactly when a late `put` of the daemon replaces an entry that still matches the disk. */
module LatePuts {
  import opened Wrappers
  import opened FileHistory
  import opened ResultCache
  import opened DaemonRuns
  import opened AbsentFiles

  /**
   * The file exists at `i` and `k`; the `w`-th watched path is absent at `i`, exists at `k` and is absent at the end.
   */
  ghost predicate Comes(c: Setup, h: seq<Disk>, file: Path, w: nat, i: nat, k: nat)
    requires w < 3
  {
    && i < k < |h|
    && file in h[i] && Watched(c, file)[w] !in h[i]
    && file in h[k] && Watched(c, file)[w] in h[k]
    && Watched(c, file)[w] !in h[|h| - 1]
  }

  /** The request is about to store another stamp of the `w`-th path, while the entry's is the current one. */
  ghost predicate Overwrites(c: Setup, s: State, id: nat, w: nat)
    requires w < 3
  {
    && Enabled(s, Finish(id)) && Stores(s.requests[id])
    && s.requests[id].file in s.entries
    && EntryStamps(s.entries[s.requests[id].file])[w] == StampAt(s.Disk(), Watched(c, s.requests[id].file)[w])
    && EntryStamps(s.entries[s.requests[id].file])[w] != s.requests[id].before[w]
  }

  lemma SameFile(h: seq<Disk>, paths: seq<Path>, stamps: seq<Option<Stamp>>, first: seq<nat>, again: seq<nat>, w: nat)
    requires ValidHistory(h) && |paths| == |stamps| == 3 && w < 3 && stamps[0].Some?
    requires Taken(h, paths, stamps, first, 0) && Taken(h, paths, stamps, again, 0) && AllBefore(first, again)
    ensures first[w] < |h| && paths[0] in h[first[w]]
  {
    SameStampSameContent(h, paths[0], first[0], first[w], again[0]);
  }

  lemma RequestTaken(c: Setup, h: seq<Disk>, r: Request)
    requires GoodRequest(c, h, r) && r.phase.Putting? && Stores(r)
    ensures Taken(h, Watched(c, r.file), r.before, r.beforeAt, 0)
    ensures Taken(h, Watched(c, r.file), r.before, r.phase.recheckedAt, 0) && AllBefore(r.beforeAt, r.phase.recheckedAt)
    ensures |r.before| == |r.beforeAt| == |r.phase.recheckedAt| == 3 && r.before[0].Some?
    ensures forall w :: 0 <= w < 3 ==> r.phase.lockedAt <= r.phase.recheckedAt[w]
  {
    BeforeRechecked(h, Watched(c, r.file), r);
  }

  /** A path that a run found present cannot have been absent for the entry after that run was stamped. */
  lemma AbsentBefore(h: seq<Disk>, p: Path, m: nat, b: nat, n: nat)
    requires ValidHistory(h) && m <= n < |h| && b <= n && p !in h[m]
    requires StampAt(h[b], p).Some? && StampAt(h[b], p) == StampAt(h[n], p)
    ensures m < b
  {
    if b <= m {
      SameStampSameContent(h, p, b, m, n);
    }
  }

  lemma OverwriteComesAt(c: Setup, h: seq<Disk>, origins: map<Path, Origin>, r: Request, e: CacheEntry, w: nat)
      returns (i: nat, k: nat)
    requires ValidHistory(h) && GoodRequest(c, h, r) && r.phase.Putting? && Stores(r) && w < 3
    requires r.file in origins && GoodEntry(c, h, r.file, e, origins[r.file]) && RecheckedBy(origins, r.phase.lockedAt)
    requires EntryStamps(e)[w] == StampAt(h[|h| - 1], Watched(c, r.file)[w]) && EntryStamps(e)[w] != r.before[w]
    ensures Comes(c, h, r.file, w, i, k)
  {
    var o, paths := origins[r.file], Watched(c, r.file);
    RequestTaken(c, h, r);
    EntryStampFound(c, h, r.file, e, o, w);
    RecheckedEarlier(origins, r.file, w, r.phase.lockedAt);
    assert Taken(h, paths, EntryStamps(e), o.beforeAt, 0) && Taken(h, paths, EntryStamps(e), o.recheckedAt, 0);
    assert AllBefore(o.beforeAt, o.recheckedAt);
    hide GoodEntry, GoodRequest, RecheckedBy, ValidHistory, Stores;
    if EntryStamps(e)[w].Some? {
      LatePutKeepsStamp(c, h, origins, r, e, w);
    }
    SameFile(h, paths, EntryStamps(e), o.beforeAt, o.recheckedAt, w);
    SameFile(h, paths, r.before, r.beforeAt, r.phase.recheckedAt, w);
    AbsentBefore(h, paths[w], o.recheckedAt[w], r.beforeAt[w], r.phase.recheckedAt[w]);
    i, k := o.beforeAt[w], r.beforeAt[w];
  }

  lemma OverwriteComes(c: Setup, d: Disk, run: seq<Step>, s: State, id: nat, w: nat) returns (i: nat, k: nat)
    requires After(c, d, run) == Some(s) && w < 3 && Overwrites(c, s, id, w)
    ensures Comes(c, s.history, s.requests[id].file, w, i, k)
  {
    hide Inv, ValidHistory, RecheckedBy, GoodEntry, GoodRequest, After, Watched, Comes, Stores, EntryStamps;
    RunKeepsInv(c, d, run);
    var r := s.requests[id];
    EntryHasOrigin(c, s, r.file);
    RequestOf(c, s, id);
    EntryOf(c, s, r.file);
    i, k := OverwriteComesAt(c, s.history, s.origins, r, s.entries[r.file], w);
  }

  // ---------------------------------------------------------------------------
  // The other way round
  // ---------------------------------------------------------------------------

  /** A whole request at one instant: its result is stored. */
  lemma StoresAt(c: Setup, h: seq<Disk>, file: Path, i: nat) returns (run: seq<Step>, s: State)
    requires IsEdited(h) && i < |h| && file in h[i]
    ensures Ends(c, h[0], run, On(s, h, i)) && s.lock == None && 1 !in s.requests
    ensures file in s.entries && s.entries[file].trigger == "edit"
    ensures EntryStamps(s.entries[file]) == StampsAt(c, h, file, [i, i, i], 3)
  {
    hide Ends, IsEdited, Watched, On, Graced, AfterReply;
    Begins(c, h);
    var at, none := [i, i, i], NOTHING_YET;
    var r := Prepared(c, h, file, at, []);
    run := Asks(c, h, [], none, 0, file, at, 0);
    run := LooksUp(c, h, run, none, 0, r, at, i);
    Misses(c, none, r.(phase := Getting(StampsAt(c, h, file, at, 3), at)));
    FileStamp(c, h, file, i);
    var put;
    run, put := Saves(c, h, run, none, 0, r.(phase := Running), at, i);
    s := With(Saved(c, none, r.(phase := put.phase)), 0, put.(phase := Ran(put.phase.results)));
  }

  lemma FileStamp(c: Setup, h: seq<Disk>, file: Path, i: nat)
    requires i < |h| && file in h[i]
    ensures StampsAt(c, h, file, [i, i, i], 3)[0].Some?
  {
  }

  lemma DiffersMisses(c: Setup, s: State, r: Request, w: nat)
    requires w < 3 && r.phase.Getting? && |r.phase.found| == 3 && r.file in s.entries
    requires EntryStamps(s.entries[r.file])[w] != r.phase.found[w]
    ensures AfterReply(c, s.entries, s.origins, r) == r.(phase := Running)
  {
  }

  /** The request about to overwrite. */
  function Late(c: Setup, h: seq<Disk>, file: Path, k: nat, s: State): Request
    requires k < |h|
  {
    var r := Prepared(c, h, file, [k, k, k], []).(phase := Running);
    Rechecked(Puts(c, s, r, k), StampsAt(c, h, file, [k, k, k], 3), [k, k, k])
  }

  lemma ComesLate(c: Setup, h: seq<Disk>, file: Path, w: nat, i: nat, k: nat, run: seq<Step>, s: State)
    returns (longer: seq<Step>, t: State)
    requires IsEdited(h) && w < 3 && Comes(c, h, file, w, i, k)
    requires Ends(c, h[0], run, On(s, h, i)) && s.lock == None && 1 !in s.requests && file in s.entries
    requires EntryStamps(s.entries[file]) == StampsAt(c, h, file, [i, i, i], 3)
    ensures t.entries == s.entries && Ends(c, h[0], longer, On(With(t, 1, Late(c, h, file, k, s)), h, k))
  {
    hide Ends, IsEdited, Watched, On, With, Graced, AfterReply, EntryStamps;
    var at := [k, k, k];
    var r := Prepared(c, h, file, at, []);
    longer := Asks(c, h, run, s, 1, file, at, i);
    longer := LooksUp(c, h, longer, s, 1, r, at, k);
    StampsDiffer(c, h, file, w, i, k);
    DiffersMisses(c, s, r.(phase := Getting(StampsAt(c, h, file, at, 3), at)), w);
    longer := StartsToPut(c, h, longer, s, 1, r.(phase := Running), k);
    t := s.(lock := Some(1), pending := Graced(c, s.pending, r.(phase := Running)).0);
    longer := Rechecks(c, h, longer, t, 1, Puts(c, s, r.(phase := Running), k), at, 0, k);
  }

  lemma StampsDiffer(c: Setup, h: seq<Disk>, file: Path, w: nat, i: nat, k: nat)
    requires w < 3 && Comes(c, h, file, w, i, k)
    ensures StampsAt(c, h, file, [i, i, i], 3)[w]
            == StampAt(h[|h| - 1], Watched(c, file)[w]) != StampsAt(c, h, file, [k, k, k], 3)[w]
    ensures StampsAt(c, h, file, [k, k, k], 0) == [] && StampsAt(c, h, file, [k, k, k], 3)[0].Some?
  {
    assert [i, i, i][w] == i && [k, k, k][w] == k;
  }

  lemma ComesOverwrites(c: Setup, h: seq<Disk>, file: Path, w: nat, i: nat, k: nat) returns (run: seq<Step>, s: State)
    requires IsEdited(h) && w < 3 && Comes(c, h, file, w, i, k)
    ensures After(c, h[0], run) == Some(s) && s.history == h
    ensures 1 in s.requests && s.requests[1].file == file && Overwrites(c, s, 1, w)
  {
    hide Ends, IsEdited, Watched, On, With, Graced, EntryStamps, StampsAt, After;
    var s0, t;
    run, s0 := StoresAt(c, h, file, i);
    run, t := ComesLate(c, h, file, w, i, k, run, s0);
    run := Advances(c, h, run, With(t, 1, Late(c, h, file, k, s0)), k, |h| - 1);
    s := Finally(c, h, run, t, 1, Late(c, h, file, k, s0));
    StampsDiffer(c, h, file, w, i, k);
  }

  ghost predicate SomeOverwrites(c: Setup, h: seq<Disk>, file: Path, w: nat)
    requires |h| > 0 && w < 3
  {
    exists run, s: State, id :: After(c, h[0], run) == Some(s) && s.history == h && id in s.requests
                                && s.requests[id].file == file && Overwrites(c, s, id, w)
  }

  /**
   * At the end of a history, some run is about to replace an entry whose `w`-th stamp is the current one by one with
   * another stamp, exactly when that path was absent, came while the file existed, and is absent again.
   */
  lemma OverwritesIffComes(c: Setup, h: seq<Disk>, file: Path, w: nat)
    requires IsEdited(h) && w < 3
    ensures SomeOverwrites(c, h, file, w) <==> exists i, k :: Comes(c, h, file, w, i, k)
  {
    hide After, IsEdited, Comes, Overwrites;
    EditedStarts(h);
    if SomeOverwrites(c, h, file, w) {
      var run, s, id :| After(c, h[0], run) == Some(s) && s.history == h && id in s.requests
                        && s.requests[id].file == file && Overwrites(c, s, id, w);
      var i, k := OverwriteComes(c, h[0], run, s, id, w);
    }
    if i, k :| Comes(c, h, file, w, i, k) {
      var run, s := ComesOverwrites(c, h, file, w, i, k);
    }
  }
}
