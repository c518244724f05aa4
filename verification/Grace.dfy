/**
 * The grace period: a blocking check that fails for the first time in an edit sequence is only advisory;
 * it blocks when it is still failing the next time the file is checked.
 */
module Grace {
  import opened Basics

  datatype CheckResult = CheckResult(checkName: string, passed: bool, severity: Severity, output: string)

  const GRACE_NOTE :=
    "\n[kibitzer] first occurrence this edit sequence — will block if still failing on the next edit to this file"

  type Pending = map<string, bool>

  function GraceKey(file: string, checkName: string): string
  {
    file + "::" + checkName
  }

  function Downgraded(r: CheckResult): CheckResult
  {
    r.(severity := Advisory, output := r.output + GRACE_NOTE)
  }

  /** One result against the pending failures: the new pending failures, and the result to report. */
  function GraceOne(pending: Pending, file: string, r: CheckResult): (Pending, CheckResult)
  {
    var k := GraceKey(file, r.checkName);
    if r.severity != Blocking then (pending, r)
    else if r.passed then (pending - {k}, r)
    else (pending[k := true], if k in pending && pending[k] then r else Downgraded(r))
  }

  function GraceAll(pending: Pending, file: string, results: seq<CheckResult>): (out: (Pending, seq<CheckResult>))
    ensures |out.1| == |results|
  {
    if results == [] then (pending, [])
    else
      var before := GraceAll(pending, file, results[..|results| - 1]);
      var last := GraceOne(before.0, file, results[|results| - 1]);
      (last.0, before.1 + [last.1])
  }

  /** Batch runs enforce immediately and leave no trace. */
  function GraceCall(pending: Pending, file: string, trigger: string,
                     results: seq<CheckResult>): (out: (Pending, seq<CheckResult>))
    ensures |out.1| == |results|
  {
    if trigger == "batch" then (pending, results) else GraceAll(pending, file, results)
  }

  // ---------------------------------------------------------------------------
  // Sequences of calls
  // ---------------------------------------------------------------------------

  datatype Call = Call(file: string, trigger: string, results: seq<CheckResult>)

  /** A blocking result reported under a live trigger: the only thing the tracker reacts to. */
  datatype Event = Event(key: string, failed: bool)

  function EventsOf(file: string, results: seq<CheckResult>): seq<Event>
  {
    if results == [] then []
    else
      var r := results[|results| - 1];
      EventsOf(file, results[..|results| - 1])
      + (if r.severity == Blocking then [Event(GraceKey(file, r.checkName), !r.passed)] else [])
  }

  function Events(log: seq<Call>): seq<Event>
  {
    if log == [] then []
    else
      var c := log[|log| - 1];
      Events(log[..|log| - 1]) + (if c.trigger == "batch" then [] else EventsOf(c.file, c.results))
  }

  /** The most recent event for `key` is a failure. */
  ghost predicate LatestFailed(events: seq<Event>, key: string)
  {
    exists i :: 0 <= i < |events| && events[i] == Event(key, true)
                && forall j :: i < j < |events| ==> events[j].key != key
  }

  /** The pending failures after a sequence of calls on a fresh tracker. */
  function PendingAfter(log: seq<Call>): Pending
  {
    if log == [] then map[]
    else
      var c := log[|log| - 1];
      GraceCall(PendingAfter(log[..|log| - 1]), c.file, c.trigger, c.results).0
  }

  /** `pending` holds exactly the keys whose latest event is a failure. */
  ghost predicate Tracks(pending: Pending, events: seq<Event>)
  {
    forall key :: (key in pending <==> LatestFailed(events, key)) && (key in pending ==> pending[key])
  }

  lemma LatestAfter(events: seq<Event>, e: Event, key: string)
    ensures LatestFailed(events + [e], key) <==> if e.key == key then e.failed else LatestFailed(events, key)
  {
    var all := events + [e];
    assert all[|events|] == e;
    if e.key != key {
      if LatestFailed(events, key) {
        var i :| 0 <= i < |events| && events[i] == Event(key, true)
                 && forall j :: i < j < |events| ==> events[j].key != key;
        assert all[i] == Event(key, true);
      }
      if LatestFailed(all, key) {
        var i :| 0 <= i < |all| && all[i] == Event(key, true) && forall j :: i < j < |all| ==> all[j].key != key;
        assert i < |events| && events[i] == Event(key, true);
        assert forall j :: i < j < |events| ==> events[j] == all[j];
      }
    }
  }

  lemma {:induction false} GraceAllTracks(pending: Pending, events: seq<Event>, file: string, results: seq<CheckResult>)
    requires Tracks(pending, events)
    ensures Tracks(GraceAll(pending, file, results).0, events + EventsOf(file, results))
  {
    if results == [] {
      assert events + [] == events;
    } else {
      var r := results[|results| - 1];
      var rest := results[..|results| - 1];
      GraceAllTracks(pending, events, file, rest);
      var sofar := events + EventsOf(file, rest);
      if r.severity == Blocking {
        var e := Event(GraceKey(file, r.checkName), !r.passed);
        assert events + EventsOf(file, results) == sofar + [e];
        forall key
          ensures LatestFailed(sofar + [e], key) <==> if e.key == key then e.failed else LatestFailed(sofar, key)
        {
          LatestAfter(sofar, e, key);
        }
      } else {
        assert events + EventsOf(file, results) == sofar;
      }
    }
  }

  lemma {:induction false} PendingTracks(log: seq<Call>)
    ensures Tracks(PendingAfter(log), Events(log))
  {
    if log != [] {
      var c := log[|log| - 1];
      PendingTracks(log[..|log| - 1]);
      var before := Events(log[..|log| - 1]);
      if c.trigger == "batch" {
        assert before + [] == before;
      } else {
        GraceAllTracks(PendingAfter(log[..|log| - 1]), before, c.file, c.results);
      }
    }
  }

  lemma {:induction false} GraceAllAt(pending: Pending, file: string, results: seq<CheckResult>, i: nat)
    requires i < |results|
    ensures GraceAll(pending, file, results).1[i]
            == GraceOne(GraceAll(pending, file, results[..i]).0, file, results[i]).1
  {
    var n := |results| - 1;
    if i < n {
      GraceAllAt(pending, file, results[..n], i);
      assert results[..n][..i] == results[..i];
    } else {
      assert results[..n] == results[..i];
    }
  }

  /**
   * After any sequence of calls: the `i`-th result of a live call is reported unchanged, except a blocking
   * failure whose key did not fail the last time a blocking result for it was reported. That one is downgraded.
   */
  lemma BlocksIffStillFailing(log: seq<Call>, c: Call, i: nat)
    requires i < |c.results| && c.trigger != "batch"
    ensures var r := c.results[i];
            var reported := GraceCall(PendingAfter(log), c.file, c.trigger, c.results).1[i];
            var earlier := Events(log) + EventsOf(c.file, c.results[..i]);
            reported == if r.severity == Blocking && !r.passed && !LatestFailed(earlier, GraceKey(c.file, r.checkName))
                        then Downgraded(r) else r
  {
    PendingTracks(log);
    GraceAllAt(PendingAfter(log), c.file, c.results, i);
    GraceAllTracks(PendingAfter(log), Events(log), c.file, c.results[..i]);
  }

  /** A batch call reports everything as it is, and no later call can tell that it happened. */
  lemma BatchLeavesNoTrace(log: seq<Call>, c: Call)
    requires c.trigger == "batch"
    ensures GraceCall(PendingAfter(log), c.file, c.trigger, c.results).1 == c.results
    ensures PendingAfter(log + [c]) == PendingAfter(log)
  {
    assert (log + [c])[..|log + [c]| - 1] == log;
  }

  // ---------------------------------------------------------------------------
  // When a key stands for one file and check
  // ---------------------------------------------------------------------------

  /** The separator does not occur in `file`, nor straddle its end. */
  ghost predicate Separable(file: string)
  {
    forall i :: 0 <= i < |file| ==> !(file[i] == ':' && (file + ":")[i + 1] == ':')
  }

  lemma KeysDistinguish(file1: string, check1: string, file2: string, check2: string)
    requires Separable(file1) && Separable(file2)
    requires GraceKey(file1, check1) == GraceKey(file2, check2)
    ensures file1 == file2 && check1 == check2
  {
    var k := GraceKey(file1, check1);
    if |file1| < |file2| {
      SeparatorAt(file1, check1);
      PrefixOfKey(file2, check2);
      assert false;
    } else if |file2| < |file1| {
      SeparatorAt(file2, check2);
      PrefixOfKey(file1, check1);
      assert false;
    }
    assert file1 == k[..|file1|] && check1 == k[|file1| + 2..];
    assert file2 == k[..|file2|] && check2 == k[|file2| + 2..];
  }

  /** A blocking result reported under a live trigger, by file and check. */
  datatype Outcome = Outcome(file: string, checkName: string, failed: bool)

  function OutcomesOf(file: string, results: seq<CheckResult>): (o: seq<Outcome>)
    ensures forall k :: 0 <= k < |o| ==> o[k].file == file
  {
    if results == [] then []
    else
      var r := results[|results| - 1];
      OutcomesOf(file, results[..|results| - 1])
      + (if r.severity == Blocking then [Outcome(file, r.checkName, !r.passed)] else [])
  }

  function Outcomes(log: seq<Call>): seq<Outcome>
  {
    if log == [] then []
    else
      var c := log[|log| - 1];
      Outcomes(log[..|log| - 1]) + (if c.trigger == "batch" then [] else OutcomesOf(c.file, c.results))
  }

  /** The most recent outcome of this check on this file is a failure. */
  ghost predicate FailedLast(outcomes: seq<Outcome>, file: string, checkName: string)
  {
    exists i :: 0 <= i < |outcomes| && outcomes[i] == Outcome(file, checkName, true)
                && forall j :: i < j < |outcomes| ==> !(outcomes[j].file == file && outcomes[j].checkName == checkName)
  }

  function Keyed(outcomes: seq<Outcome>): seq<Event>
  {
    seq(|outcomes|, i requires 0 <= i < |outcomes| =>
        Event(GraceKey(outcomes[i].file, outcomes[i].checkName), outcomes[i].failed))
  }

  ghost predicate AllSeparable(outcomes: seq<Outcome>)
  {
    forall i :: 0 <= i < |outcomes| ==> Separable(outcomes[i].file)
  }

  lemma KeyedAppends(a: seq<Outcome>, b: seq<Outcome>)
    ensures Keyed(a + b) == Keyed(a) + Keyed(b)
  {
  }

  lemma {:induction false} EventsOfOutcomes(file: string, results: seq<CheckResult>)
    ensures EventsOf(file, results) == Keyed(OutcomesOf(file, results))
  {
    if results != [] {
      EventsOfOutcomes(file, results[..|results| - 1]);
    }
  }

  lemma {:induction false} EventsAreOutcomes(log: seq<Call>)
    requires forall k :: 0 <= k < |log| ==> Separable(log[k].file)
    ensures Events(log) == Keyed(Outcomes(log)) && AllSeparable(Outcomes(log))
  {
    hide Separable, EventsOf, OutcomesOf;
    if log != [] {
      var c := log[|log| - 1];
      EventsAreOutcomes(log[..|log| - 1]);
      EventsOfOutcomes(c.file, c.results);
      KeyedAppends(Outcomes(log[..|log| - 1]), OutcomesOf(c.file, c.results));
    }
  }

  lemma FailedLastByKey(outcomes: seq<Outcome>, file: string, checkName: string)
    requires Separable(file) && AllSeparable(outcomes)
    ensures LatestFailed(Keyed(outcomes), GraceKey(file, checkName)) <==> FailedLast(outcomes, file, checkName)
  {
    var events, key := Keyed(outcomes), GraceKey(file, checkName);
    forall i | 0 <= i < |outcomes|
      ensures events[i].key == key <==> outcomes[i].file == file && outcomes[i].checkName == checkName
    {
      if events[i].key == key {
        KeysDistinguish(outcomes[i].file, outcomes[i].checkName, file, checkName);
      }
    }
    hide Separable, GraceKey, Keyed;
    if LatestFailed(events, key) {
      var i :| 0 <= i < |events| && events[i] == Event(key, true)
               && forall j :: i < j < |events| ==> events[j].key != key;
      assert outcomes[i] == Outcome(file, checkName, true);
    }
    if FailedLast(outcomes, file, checkName) {
      var i :| 0 <= i < |outcomes| && outcomes[i] == Outcome(file, checkName, true)
               && forall j :: i < j < |outcomes| ==> !(outcomes[j].file == file && outcomes[j].checkName == checkName);
      assert events[i] == Event(key, true);
    }
  }

  /**
   * In terms of files and checks, for paths without the separator: a blocking failure is downgraded exactly when this
   * check on this file did not fail the last time.
   */
  lemma {:induction false} BlocksIffCheckStillFailing(log: seq<Call>, c: Call, i: nat)
    requires i < |c.results| && c.trigger != "batch"
    requires Separable(c.file) && forall k :: 0 <= k < |log| ==> Separable(log[k].file)
    ensures var r := c.results[i];
            var reported := GraceCall(PendingAfter(log), c.file, c.trigger, c.results).1[i];
            var earlier := Outcomes(log) + OutcomesOf(c.file, c.results[..i]);
            reported == if r.severity == Blocking && !r.passed && !FailedLast(earlier, c.file, r.checkName)
                        then Downgraded(r) else r
  {
    EarlierByKey(log, c, i);
    hide Separable, LatestFailed, FailedLast, GraceCall, Downgraded;
    BlocksIffStillFailing(log, c, i);
  }

  lemma {:induction false} EarlierByKey(log: seq<Call>, c: Call, i: nat)
    requires i < |c.results| && Separable(c.file) && forall k :: 0 <= k < |log| ==> Separable(log[k].file)
    ensures LatestFailed(Events(log) + EventsOf(c.file, c.results[..i]), GraceKey(c.file, c.results[i].checkName))
            <==> FailedLast(Outcomes(log) + OutcomesOf(c.file, c.results[..i]), c.file, c.results[i].checkName)
  {
    hide Separable, LatestFailed, FailedLast, Keyed;
    var now := OutcomesOf(c.file, c.results[..i]);
    EventsAreOutcomes(log);
    EventsOfOutcomes(c.file, c.results[..i]);
    KeyedAppends(Outcomes(log), now);
    FailedLastByKey(Outcomes(log) + now, c.file, c.results[i].checkName);
  }

  lemma SeparatorAt(file: string, checkName: string)
    ensures var k := GraceKey(file, checkName); |k| >= |file| + 2 && k[|file|] == ':' && k[|file| + 1] == ':'
  {
  }

  lemma PrefixOfKey(file: string, checkName: string)
    ensures var k := GraceKey(file, checkName); |k| > |file| && k[..|file| + 1] == file + ":"
  {
    var k := GraceKey(file, checkName);
    assert k == (file + ":") + (":" + checkName);
  }

  /** Two different paths share some key exactly when one, with the separator, begins the other with the separator. */
  lemma KeysCollideIff(file1: string, file2: string)
    requires |file1| < |file2|
    ensures (exists c1, c2 :: GraceKey(file1, c1) == GraceKey(file2, c2)) <==> file1 + "::" <= file2 + "::"
  {
    if file1 + "::" <= file2 + "::" {
      var rest := (file2 + "::")[|file1| + 2..];
      assert GraceKey(file1, rest) == GraceKey(file2, "");
    }
    forall c1, c2 | GraceKey(file1, c1) == GraceKey(file2, c2) ensures file1 + "::" <= file2 + "::" {
      assert GraceKey(file1, c1)[..|file1| + 2] == file1 + "::";
      assert GraceKey(file2, c2)[..|file2| + 2] == file2 + "::";
    }
  }

  /** A path without the separator is exactly one whose keys no shorter path can have. */
  lemma SeparableIff(file: string)
    ensures Separable(file) <==> forall g, c1, c2 :: |g| < |file| ==> GraceKey(g, c1) != GraceKey(file, c2)
  {
    if Separable(file) {
      forall g, c1, c2 | |g| < |file| ensures GraceKey(g, c1) != GraceKey(file, c2) {
        SeparatorAt(g, c1);
        PrefixOfKey(file, c2);
      }
    } else {
      var i :| 0 <= i < |file| && file[i] == ':' && (file + ":")[i + 1] == ':';
      var g := file[..i];
      assert (file + "::")[..i + 2] == g + "::";
      KeysCollideIff(g, file);
    }
  }

  /** One such pair. */
  lemma KeysCanCollide()
    ensures GraceKey("a", "b::c") == GraceKey("a::b", "c")
  {
    assert GraceKey("a", "b::c") == "a::b::c" == GraceKey("a::b", "c");
  }
}
