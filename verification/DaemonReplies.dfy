/** What the daemon answers: the reply to every request, over every interleaving. */
module DaemonReplies {
  import opened Basics
  import opened Wrappers
  import opened FileHistory
  import opened Grace
  import opened ResultCache
  import opened DaemonRuns

  // ---------------------------------------------------------------------------
  // A request that ran its checks
  // ---------------------------------------------------------------------------

  /** How one result is reported after these events: a live blocking failure that did not fail last time is put off. */
  ghost predicate ReportedAs(earlier: seq<Event>, file: Path, trigger: string, raw: CheckResult, reported: CheckResult)
  {
    reported == if trigger != "batch" && raw.severity == Blocking && !raw.passed
                   && !LatestFailed(earlier, file + "::" + raw.checkName)
                then CheckResult(raw.checkName, false, Advisory, raw.output + GRACE_NOTE) else raw
  }

  /** What the checks of a request give on the contents it saw. */
  ghost function RawResults(c: Setup, r: Request): seq<CheckResult>
  {
    var inputs := seq(|r.seen|, i requires 0 <= i < |r.seen| => (r.seen[i].which, r.seen[i].content));
    c.run(inputs, r.file, r.trigger, r.scoped)
  }

  /** `reported` is what the checks of `r` gave, each result as the grace period has it when it locks after `run`. */
  ghost predicate IsReply(c: Setup, d: Disk, run: seq<Step>, r: Request, reported: seq<CheckResult>)
    requires After(c, d, run).Some?
  {
    var raw := RawResults(c, r);
    && |reported| == |raw|
    && forall i :: 0 <= i < |raw| ==>
         ReportedAs(Events(CallsOf(c, d, run)) + EventsOf(r.file, raw[..i]), r.file, r.trigger, raw[i], reported[i])
  }

  /** In step `k` the request locked to store. */
  ghost predicate LockedAt(c: Setup, d: Disk, run: seq<Step>, k: nat, id: nat)
  {
    k < |run| && run[k] == LockToPut(id) && After(c, d, run[..k]).Some?
  }

  ghost predicate Replies(c: Setup, d: Disk, run: seq<Step>, k: nat, id: nat, r: Request, reported: seq<CheckResult>)
  {
    LockedAt(c, d, run, k, id) && IsReply(c, d, run[..k], r, reported)
  }

  /** The results of a request on their way to the client. */
  function Reporting(phase: Phase): Option<seq<CheckResult>>
  {
    match phase
    case Putting(results, _, _, _) => Some(results)
    case Ran(reported) => Some(reported)
    case _ => None
  }

  /** Once a request has locked to store, its results and what they came from stay. */
  lemma ReportingStays(c: Setup, s: State, step: Step, id: nat)
    requires Enabled(s, step) && id in Next(c, s, step).requests
    requires Reporting(Next(c, s, step).requests[id].phase).Some? && step != LockToPut(id)
    ensures id in s.requests
    ensures var r, t := s.requests[id], Next(c, s, step).requests[id];
            && Reporting(r.phase) == Reporting(t.phase)
            && (r.file, r.trigger, r.scoped, r.seen) == (t.file, t.trigger, t.scoped, t.seen)
  {
    hide NewStamp, EntriesAfter, Graced, Stores, Watched, Answer, AsStamps;
  }

  lemma RunsOnWhatItSaw(c: Setup, r: Request)
    ensures RawResults(c, r) == c.run(InputsOf(r.seen), r.file, r.trigger, r.scoped)
  {
    var inputs := seq(|r.seen|, i requires 0 <= i < |r.seen| => (r.seen[i].which, r.seen[i].content));
    assert inputs == InputsOf(r.seen);
  }

  lemma LockedReply(c: Setup, d: Disk, run: seq<Step>, s: State, id: nat)
    requires After(c, d, run) == Some(s) && Enabled(s, LockToPut(id))
    ensures id in Next(c, s, LockToPut(id)).requests
    ensures var t := Next(c, s, LockToPut(id)).requests[id];
            t.phase.Putting? && IsReply(c, d, run, t, t.phase.results)
  {
    hide After, LatestFailed, GraceCall, Events, EventsOf, CallsOf;
    PendingIsSerial(c, d, run);
    CallWhenLocking(c, s, id);
    var r, t := s.requests[id], Next(c, s, LockToPut(id)).requests[id];
    var raw := RawResults(c, r);
    RunsOnWhatItSaw(c, r);
    RunsOnWhatItSaw(c, t);
    var log, call := CallsOf(c, d, run), Call(r.file, r.trigger, raw);
    if r.trigger == "batch" {
      BatchLeavesNoTrace(log, call);
    } else {
      forall i | 0 <= i < |raw|
        ensures ReportedAs(Events(log) + EventsOf(r.file, raw[..i]), r.file, r.trigger, raw[i], t.phase.results[i])
      {
        BlocksIffStillFailing(log, call, i);
      }
    }
  }

  lemma RepliesKept(c: Setup, d: Disk, run: seq<Step>, k: nat, id: nat, r: Request, t: Request,
                    reported: seq<CheckResult>)
    requires run != [] && Replies(c, d, run[..|run| - 1], k, id, r, reported)
    requires (r.file, r.trigger, r.scoped, r.seen) == (t.file, t.trigger, t.scoped, t.seen)
    ensures Replies(c, d, run, k, id, t, reported)
  {
    hide After, ReportedAs, CallsOf, Events, EventsOf;
    assert run[..|run| - 1][..k] == run[..k];
  }

  lemma {:induction false} ReportingIsReply(c: Setup, d: Disk, run: seq<Step>, s: State, id: nat)
    requires After(c, d, run) == Some(s) && id in s.requests && Reporting(s.requests[id].phase).Some?
    ensures exists k: nat :: Replies(c, d, run, k, id, s.requests[id], Reporting(s.requests[id].phase).value)
  {
    hide Enabled, Next, IsReply, Replies, Reporting;
    if run != [] {
      var before, step := run[..|run| - 1], run[|run| - 1];
      var p := After(c, d, before).value;
      if step == LockToPut(id) {
        LockedReply(c, d, before, p, id);
        ReportingIs(s.requests[id]);
        RepliesNow(c, d, run, id, s.requests[id]);
      } else {
        ReportingStays(c, p, step, id);
        ReportingIsReply(c, d, before, p, id);
        var k: nat :| Replies(c, d, before, k, id, p.requests[id], Reporting(p.requests[id].phase).value);
        RepliesKept(c, d, run, k, id, p.requests[id], s.requests[id], Reporting(s.requests[id].phase).value);
      }
    }
  }

  lemma ReportingIs(r: Request)
    ensures r.phase.Putting? ==> Reporting(r.phase) == Some(r.phase.results)
    ensures r.phase.Ran? ==> Reporting(r.phase) == Some(r.phase.reported)
  {
  }

  lemma RepliesNow(c: Setup, d: Disk, run: seq<Step>, id: nat, r: Request)
    requires run != [] && run[|run| - 1] == LockToPut(id) && After(c, d, run[..|run| - 1]).Some?
    requires r.phase.Putting? && IsReply(c, d, run[..|run| - 1], r, r.phase.results)
    ensures Replies(c, d, run, |run| - 1, id, r, r.phase.results)
  {
    hide After, IsReply;
  }

  /**
   * In every run, a request that ran its checks, with changed lines or not, replies with exactly what they gave on the
   * contents it saw: each result as it is, except that a live blocking failure is put off when its check on this file
   * did not fail the last time, in the order in which requests locked to store.
   */
  lemma EveryReplyIsItsOwnRun(c: Setup, d: Disk, run: seq<Step>, s: State, id: nat) returns (k: nat)
    requires After(c, d, run) == Some(s) && id in s.requests && s.requests[id].phase.Ran?
    ensures LockedAt(c, d, run, k, id)
    ensures IsReply(c, d, run[..k], s.requests[id], s.requests[id].phase.reported)
  {
    hide IsReply, After;
    ReportingIsReply(c, d, run, s, id);
    k :| Replies(c, d, run, k, id, s.requests[id], s.requests[id].phase.reported);
  }

  // ---------------------------------------------------------------------------
  // A request answered from the cache
  // ---------------------------------------------------------------------------

  /** In step `k` a request for `file`, without changed lines, finished its run and found no stamp moved. */
  ghost predicate StoresAt(c: Setup, d: Disk, run: seq<Step>, k: nat, file: Path)
  {
    && k < |run| && run[k].Finish? && After(c, d, run[..k + 1]).Some?
    && After(c, d, run[..k]).Some? && run[k].id in After(c, d, run[..k]).value.requests
    && var r := After(c, d, run[..k]).value.requests[run[k].id];
    && r.file == file && !r.scoped && r.phase.Putting? && |r.before| == 3
    && r.before[0].Some? && r.before == r.phase.rechecked
  }

  /** The last such step. */
  ghost predicate LastStoreAt(c: Setup, d: Disk, run: seq<Step>, k: nat, file: Path)
  {
    StoresAt(c, d, run, k, file) && forall j :: k < j < |run| ==> !StoresAt(c, d, run, j, file)
  }

  /** What that request stores. */
  ghost function StoredAt(c: Setup, d: Disk, run: seq<Step>, k: nat, file: Path): CacheEntry
    requires StoresAt(c, d, run, k, file)
  {
    var r := After(c, d, run[..k]).value.requests[run[k].id];
    CacheEntry(r.before[0].value, r.before[1], r.before[2], r.trigger, r.phase.results)
  }

  lemma StoreBefore(c: Setup, d: Disk, run: seq<Step>, k: nat, file: Path)
    requires run != [] && k < |run| - 1
    ensures StoresAt(c, d, run, k, file) <==> StoresAt(c, d, run[..|run| - 1], k, file)
    ensures StoresAt(c, d, run, k, file) ==> StoredAt(c, d, run, k, file) == StoredAt(c, d, run[..|run| - 1], k, file)
  {
    hide After;
    assert run[..|run| - 1][..k] == run[..k] && run[..|run| - 1][..k + 1] == run[..k + 1];
  }

  lemma OtherStepsKeepEntries(c: Setup, s: State, step: Step)
    requires Enabled(s, step) && !step.Finish?
    ensures Next(c, s, step).entries == s.entries
  {
    hide NewStamp, EntriesAfter, Graced, Stores, Watched, Answer, AsStamps;
  }

  lemma FinishStores(c: Setup, s: State, id: nat)
    requires Enabled(s, Finish(id))
    ensures var r := s.requests[id];
            Next(c, s, Finish(id)).entries
            == if !r.scoped && r.before[0].Some? && r.before == r.phase.rechecked
               then s.entries[r.file := CacheEntry(r.before[0].value, r.before[1], r.before[2], r.trigger,
                                                   r.phase.results)]
               else s.entries
  {
    var r := s.requests[id];
    FinishedEntries(c, s.entries, r);
  }

  /** The entry for a file is what the last request to store one for it put there. */
  ghost predicate EntryIsLastStore(c: Setup, d: Disk, run: seq<Step>, entries: Entries, file: Path)
  {
    && (file in entries <==> exists k: nat :: StoresAt(c, d, run, k, file))
    && (file in entries ==>
          exists k: nat :: LastStoreAt(c, d, run, k, file) && entries[file] == StoredAt(c, d, run, k, file))
  }

  lemma LastStoreStays(c: Setup, d: Disk, run: seq<Step>, entries: Entries, file: Path)
    requires run != [] && EntryIsLastStore(c, d, run[..|run| - 1], entries, file)
    requires !StoresAt(c, d, run, |run| - 1, file)
    ensures EntryIsLastStore(c, d, run, entries, file)
  {
    hide StoresAt, StoredAt;
    var before := run[..|run| - 1];
    forall k: nat | k < |run| - 1
      ensures StoresAt(c, d, run, k, file) <==> StoresAt(c, d, before, k, file)
    {
      StoreBefore(c, d, run, k, file);
    }
    StoresInside(c, d, run, file);
    StoresInside(c, d, before, file);
    if file in entries {
      var k: nat :| LastStoreAt(c, d, before, k, file) && entries[file] == StoredAt(c, d, before, k, file);
      StoreBefore(c, d, run, k, file);
      assert LastStoreAt(c, d, run, k, file);
    }
  }

  lemma StoresInside(c: Setup, d: Disk, run: seq<Step>, file: Path)
    ensures forall k: nat :: StoresAt(c, d, run, k, file) ==> k < |run|
  {
    hide After;
  }

  lemma {:induction false} EveryEntryIsLastStore(c: Setup, d: Disk, run: seq<Step>, s: State, file: Path)
    requires After(c, d, run) == Some(s)
    ensures EntryIsLastStore(c, d, run, s.entries, file)
  {
    hide Enabled, Next, EntryIsLastStore, StoresAt, StoredAt;
    if run == [] {
      StoresInside(c, d, run, file);
      assert EntryIsLastStore(c, d, run, s.entries, file) by { NothingStored(c, d, s.entries, file); }
    } else {
      var before, step := run[..|run| - 1], run[|run| - 1];
      var p := After(c, d, before).value;
      EveryEntryIsLastStore(c, d, before, p, file);
      EntryStep(c, d, run, p, s, file);
    }
  }

  lemma NothingStored(c: Setup, d: Disk, entries: Entries, file: Path)
    requires entries == map[]
    ensures EntryIsLastStore(c, d, [], entries, file)
  {
    hide After;
    StoresInside(c, d, [], file);
  }

  lemma EntryStep(c: Setup, d: Disk, run: seq<Step>, p: State, s: State, file: Path)
    requires run != [] && After(c, d, run[..|run| - 1]) == Some(p) && After(c, d, run) == Some(s)
    requires EntryIsLastStore(c, d, run[..|run| - 1], p.entries, file)
    ensures EntryIsLastStore(c, d, run, s.entries, file)
  {
    hide Next, EntryIsLastStore, NewStamp;
    var step := run[|run| - 1];
    assert run[..|run| - 1 + 1] == run;
    if step.Finish? {
      FinishStores(c, p, step.id);
    } else {
      OtherStepsKeepEntries(c, p, step);
    }
    hide After;
    if StoresAt(c, d, run, |run| - 1, file) {
      LastStoreNow(c, d, run, s.entries, file);
    } else {
      hide StoresAt;
      LastStoreStays(c, d, run, p.entries, file);
      SameEntry(c, d, run, p.entries, s.entries, file);
    }
  }

  lemma SameEntry(c: Setup, d: Disk, run: seq<Step>, a: Entries, b: Entries, file: Path)
    requires EntryIsLastStore(c, d, run, a, file) && (file in a <==> file in b) && (file in a ==> a[file] == b[file])
    ensures EntryIsLastStore(c, d, run, b, file)
  {
    hide StoresAt, StoredAt;
  }

  lemma LastStoreNow(c: Setup, d: Disk, run: seq<Step>, entries: Entries, file: Path)
    requires run != [] && StoresAt(c, d, run, |run| - 1, file)
    requires file in entries && entries[file] == StoredAt(c, d, run, |run| - 1, file)
    ensures EntryIsLastStore(c, d, run, entries, file)
  {
    hide StoresAt, StoredAt;
    assert LastStoreAt(c, d, run, |run| - 1, file);
  }

  /** The last store for the file of `r` had its trigger and the stamps `r` found, and the results `cached`. */
  ghost predicate Recalls(c: Setup, d: Disk, run: seq<Step>, k: nat, r: Request, found: seq<Option<Stamp>>,
                          cached: seq<CheckResult>)
  {
    && LastStoreAt(c, d, run, k, r.file)
    && var stored := After(c, d, run[..k]).value.requests[run[k].id];
       stored.trigger == r.trigger && stored.before == found && stored.phase.results == cached
  }

  /**
   * In every run, a request without changed lines that has looked up its stamps is answered from the cache exactly when
   * the last run stored for its file had the same trigger and these stamps, and then with what that run replied.
   */
  lemma HitIffLastStoreMatches(c: Setup, d: Disk, run: seq<Step>, s: State, id: nat, cached: seq<CheckResult>)
    requires After(c, d, run) == Some(s) && Enabled(s, Reply(id))
    ensures var r, t := s.requests[id], Next(c, s, Reply(id)).requests[id];
            && (t.phase.Hit? || t.phase.Running?)
            && (t.phase.Hit? && t.phase.cached == cached
                <==> exists k: nat :: Recalls(c, d, run, k, r, r.phase.found, cached))
  {
    var r := s.requests[id];
    ReplyIff(c, s, id);
    RunKeepsInv(c, d, run);
    EveryEntryIsLastStore(c, d, run, s, r.file);
    if r.file in s.entries {
      EntryHasOrigin(c, s, r.file);
    }
    hide After, Next, Inv;
    RecalledIff(c, d, run, s.entries, r, r.phase.found, cached);
  }

  /** The entry of the file of `r` has its trigger and these stamps. */
  predicate Matches(entries: Entries, r: Request, found: seq<Option<Stamp>>)
  {
    r.file in entries && entries[r.file].trigger == r.trigger && EntryStamps(entries[r.file]) == found
  }

  lemma ReplyIff(c: Setup, s: State, id: nat)
    requires Enabled(s, Reply(id))
    ensures var r, t := s.requests[id], Next(c, s, Reply(id)).requests[id];
            && (t.phase.Hit? || t.phase.Running?)
            && (t.phase.Hit? <==> Matches(s.entries, r, r.phase.found) && r.file in s.origins)
            && (t.phase.Hit? ==> t.phase.cached == s.entries[r.file].results)
  {
    var r := s.requests[id];
    if r.file in s.entries {
      var e := s.entries[r.file];
      assert EntryStamps(e) == r.phase.found
             <==> Some(e.fileStamp) == r.phase.found[0] && e.configStamp == r.phase.found[1]
                  && e.registryStamp == r.phase.found[2];
    }
  }

  lemma OneLastStore(c: Setup, d: Disk, run: seq<Step>, j: nat, k: nat, file: Path)
    requires LastStoreAt(c, d, run, j, file) && LastStoreAt(c, d, run, k, file)
    ensures j == k
  {
    hide After;
  }

  lemma RecalledIff(c: Setup, d: Disk, run: seq<Step>, entries: Entries, r: Request, found: seq<Option<Stamp>>,
                    cached: seq<CheckResult>)
    requires EntryIsLastStore(c, d, run, entries, r.file)
    ensures Matches(entries, r, found) && entries[r.file].results == cached
            <==> exists k: nat :: Recalls(c, d, run, k, r, found, cached)
  {
    hide After;
    if r.file in entries {
      var k: nat :| LastStoreAt(c, d, run, k, r.file) && entries[r.file] == StoredAt(c, d, run, k, r.file);
      var stored := After(c, d, run[..k]).value.requests[run[k].id];
      assert EntryStamps(entries[r.file]) == stored.before;
      if j: nat :| Recalls(c, d, run, j, r, found, cached) {
        OneLastStore(c, d, run, j, k, r.file);
      }
      if Matches(entries, r, found) && entries[r.file].results == cached {
        assert Recalls(c, d, run, k, r, found, cached);
      }
    } else if j: nat :| Recalls(c, d, run, j, r, found, cached) {
      assert false;
    }
  }

  // ---------------------------------------------------------------------------
  // Checks run only after a miss
  // ---------------------------------------------------------------------------

  /** Its checks run, or have run. */
  predicate PastLookup(phase: Phase)
  {
    phase.Running? || phase.Putting? || phase.Ran?
  }

  /** In step `k` the request was told that the cache has no answer. */
  ghost predicate MissedAt(c: Setup, d: Disk, run: seq<Step>, k: nat, id: nat)
  {
    && k < |run| && run[k] == Reply(id) && After(c, d, run[..k + 1]).Some?
    && id in After(c, d, run[..k + 1]).value.requests && After(c, d, run[..k + 1]).value.requests[id].phase.Running?
  }

  lemma LookupStays(c: Setup, s: State, step: Step, id: nat)
    requires Enabled(s, step) && id in Next(c, s, step).requests
    ensures var t := Next(c, s, step).requests[id];
            && (PastLookup(t.phase) && !t.scoped && !(step == Reply(id) && t.phase.Running?) ==>
                  id in s.requests && PastLookup(s.requests[id].phase) && !s.requests[id].scoped)
            && ((t.phase.Getting? || t.phase.Hit?) && t.scoped ==>
                  id in s.requests && (s.requests[id].phase.Getting? || s.requests[id].phase.Hit?)
                  && s.requests[id].scoped)
  {
    hide NewStamp, EntriesAfter, Graced, Stores, Watched, Answer, AsStamps;
  }

  /** In every run, the checks of a request without changed lines run only after a lookup that found no answer. */
  lemma {:induction false} RunsOnlyAfterAMiss(c: Setup, d: Disk, run: seq<Step>, s: State, id: nat) returns (k: nat)
    requires After(c, d, run) == Some(s) && id in s.requests
    requires !s.requests[id].scoped && PastLookup(s.requests[id].phase)
    ensures MissedAt(c, d, run, k, id)
  {
    hide Enabled, Next, PastLookup;
    if run != [] {
      var before, step := run[..|run| - 1], run[|run| - 1];
      LookupStays(c, After(c, d, before).value, step, id);
      if step == Reply(id) && s.requests[id].phase.Running? {
        k := |run| - 1;
        assert run[..k + 1] == run;
      } else {
        k := RunsOnlyAfterAMiss(c, d, before, After(c, d, before).value, id);
        assert before[..k + 1] == run[..k + 1];
      }
    }
  }

  /** And a request with changed lines never looks. */
  lemma {:induction false} ScopedNeverLooks(c: Setup, d: Disk, run: seq<Step>, s: State, id: nat)
    requires After(c, d, run) == Some(s) && id in s.requests && s.requests[id].scoped
    ensures !s.requests[id].phase.Getting? && !s.requests[id].phase.Hit?
  {
    hide Enabled, Next;
    if run != [] {
      var before := run[..|run| - 1];
      var p := After(c, d, before).value;
      LookupStays(c, p, run[|run| - 1], id);
      if id in p.requests && p.requests[id].scoped {
        ScopedNeverLooks(c, d, before, p, id);
      }
    }
  }

  /** An answer is final, and only a request that still reads or runs can fail. */
  lemma AnswersAreFinal(c: Setup, s: State, step: Step, id: nat)
    requires Enabled(s, step) && id in s.requests
    ensures id in Next(c, s, step).requests
    ensures var r, t := s.requests[id], Next(c, s, step).requests[id];
            && (r.phase.Hit? || r.phase.Ran? || r.phase.Failed? ==> t == r)
            && (t.phase.Failed? ==> r.phase.Failed? || r.phase.Ready? || r.phase.Running?)
            && (r.phase.Ready? || r.phase.Running? ==> Enabled(s, Fail(id)))
  {
    hide NewStamp, EntriesAfter, Graced, Stores, Watched, Answer, AsStamps;
  }
}
