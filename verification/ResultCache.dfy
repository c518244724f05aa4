/** The daemon's cache object: results by file, recognised by stamps, and the grace-period state. */
module ResultCache {
  import opened Basics
  import opened Wrappers
  import opened FileHistory
  import opened Grace

  /** The fingerprints of the file, config and registry that a result depends on. */
  datatype Stamps = Stamps(filePath: Path, configPath: Path, registryPath: Path,
                           file: Option<Stamp>, config: Option<Stamp>, registry: Option<Stamp>)

  datatype CacheEntry = CacheEntry(fileStamp: Stamp, configStamp: Option<Stamp>, registryStamp: Option<Stamp>,
                                   trigger: string, results: seq<CheckResult>)

  type Entries = map<Path, CacheEntry>

  /** What `get` answers when it finds these stamps. */
  function Answer(entries: Entries, found: Stamps, trigger: string): Option<seq<CheckResult>>
  {
    if found.file.None? || found.filePath !in entries then None
    else
      var entry := entries[found.filePath];
      if entry.trigger == trigger && entry.fileStamp == found.file.value
         && entry.configStamp == found.config && entry.registryStamp == found.registry
      then Some(entry.results)
      else None
  }

  /** What `put` leaves, given the stamps from before the run and those found now. */
  function AfterPut(entries: Entries, before: Stamps, found: Stamps, trigger: string,
                    results: seq<CheckResult>): Entries
  {
    if before.file.None? || before != found then entries
    else entries[before.filePath := CacheEntry(before.file.value, before.config, before.registry, trigger, results)]
  }

  class Cache {
    var entries: Entries
    var gracePending: Pending

    constructor ()
      ensures entries == map[] && gracePending == map[]
    {
      entries := map[];
      gracePending := map[];
    }

    method Get(found: Stamps, trigger: string) returns (cached: Option<seq<CheckResult>>)
      ensures cached == Answer(entries, found, trigger)
    {
      if found.file.None? || found.filePath !in entries {
        return None;
      }
      var entry := entries[found.filePath];
      if entry.trigger == trigger && entry.fileStamp == found.file.value
         && entry.configStamp == found.config && entry.registryStamp == found.registry
      {
        return Some(entry.results);
      }
      return None;
    }

    method Put(before: Stamps, found: Stamps, trigger: string, results: seq<CheckResult>)
      modifies this`entries
      ensures entries == AfterPut(old(entries), before, found, trigger, results)
    {
      if before.file.None? {
        return;
      }
      if before != found {
        return;
      }
      entries := entries[before.filePath := CacheEntry(before.file.value, before.config, before.registry, trigger,
                                                       results)];
    }

    /** Rewrites `results` in place: a first failure of a blocking check becomes advisory. */
    method ApplyGrace(results: array<CheckResult>, file: string, trigger: string)
      modifies this`gracePending, results
      ensures (gracePending, results[..]) == GraceCall(old(gracePending), file, trigger, old(results[..]))
    {
      if trigger == "batch" {
        return;
      }
      ghost var input := results[..];
      for i := 0 to results.Length
        invariant results[i..] == input[i..]
        invariant (gracePending, results[..i]) == GraceAll(old(gracePending), file, input[..i])
      {
        assert input[..i + 1][..i] == input[..i];
        assert results[i] == results[i..][0] == input[i..][0] == input[i];
        ghost var step := GraceOne(gracePending, file, input[i]);
        var result := results[i];
        if result.severity == Blocking {
          var graceKey := GraceKey(file, result.checkName);
          if result.passed {
            gracePending := gracePending - {graceKey};
          } else {
            var wasPending := graceKey in gracePending && gracePending[graceKey];
            gracePending := gracePending[graceKey := true];
            if !wasPending {
              results[i] := Downgraded(result);
            }
          }
        }
        assert (gracePending, results[i]) == step;
        assert results[..i + 1] == results[..i] + [results[i]];
        assert results[i + 1..] == input[i + 1..];
      }
      assert results[..] == results[..results.Length];
      assert input == input[..results.Length];
    }
  }

  /**
   * What `put` means to every later `get`: if the file existed and no stamp moved, requests for that file are answered
   * exactly when trigger and stamps are those from before the run; all other answers are as they were.
   */
  lemma PutThenGet(entries: Entries, before: Stamps, now: Stamps, trigger: string, results: seq<CheckResult>,
                   later: Stamps, asked: string)
    ensures Answer(AfterPut(entries, before, now, trigger, results), later, asked)
            == if before.file.Some? && before == now && later.filePath == before.filePath then
                 if (later.file, later.config, later.registry) == (before.file, before.config, before.registry)
                     && asked == trigger
                 then Some(results) else None
               else Answer(entries, later, asked)
  {
  }
}
