/** A request alone on a quiet disk is answered: from the cache, or by a run that is then stored. */
module DaemonProgress {
  import opened Basics
  import opened Wrappers
  import opened FileHistory
  import opened Grace
  import opened ResultCache
  import opened DaemonRuns

  /** The state these steps lead to from `s`; None if some step is not enabled. */
  ghost function From(c: Setup, s: State, steps: seq<Step>): Option<State>
  {
    if steps == [] then Some(s)
    else
      var p := From(c, s, steps[..|steps| - 1]);
      if p.Some? && Enabled(p.value, steps[|steps| - 1]) then Some(Next(c, p.value, steps[|steps| - 1])) else None
  }

  /** `b` with this request under `id`. */
  function With(b: State, id: nat, r: Request): State
  {
    b.(requests := b.requests[id := r])
  }

  /** The step takes the request from `r` to `r'` and the rest of the state from `b` to `b'`. */
  ghost predicate Moves(c: Setup, b: State, id: nat, r: Request, step: Step, b': State, r': Request)
  {
    Enabled(With(b, id, r), step) && Next(c, With(b, id, r), step) == With(b', id, r')
  }

  lemma Then(c: Setup, s: State, steps: seq<Step>, b: State, id: nat, r: Request, step: Step, b': State, r': Request)
    requires From(c, s, steps) == Some(With(b, id, r)) && Moves(c, b, id, r, step, b', r')
    ensures From(c, s, steps + [step]) == Some(With(b', id, r'))
  {
    hide Enabled, Next, With;
    assert (steps + [step])[..|steps + [step]| - 1] == steps;
  }

  lemma Replaced(b: State, id: nat, r: Request, r': Request)
    ensures b.requests[id := r][id := r'] == b.requests[id := r']
  {
  }

  // ---------------------------------------------------------------------------
  // What it looks like now
  // ---------------------------------------------------------------------------

  function StampsNow(c: Setup, b: State, file: Path): (stamps: seq<Option<Stamp>>)
    requires |b.history| > 0
    ensures |stamps| == 3
  {
    [StampAt(b.Disk(), file), StampAt(b.Disk(), c.configOf(file)), StampAt(b.Disk(), c.registry)]
  }

  function SeenNow(c: Setup, b: State, file: Path, which: nat): Seen
    requires |b.history| > 0 && which < 3
  {
    Seen(which, ContentAt(b.Disk(), [file, c.configOf(file), c.registry][which]), b.Now())
  }

  function Always(b: State): (at: seq<nat>)
    requires |b.history| > 0
    ensures |at| == 3
  {
    [b.Now(), b.Now(), b.Now()]
  }

  /** The request after stamping and reading the config. */
  function Asked(c: Setup, b: State, file: Path, trigger: string, scoped: bool): Request
    requires |b.history| > 0
  {
    Request(file, trigger, scoped, StampsNow(c, b, file), Always(b), [SeenNow(c, b, file, 1)], Ready)
  }

  /** The request after reading the file for its run. */
  function Run(c: Setup, b: State, file: Path, trigger: string, scoped: bool): Request
    requires |b.history| > 0
  {
    var r := Asked(c, b, file, trigger, scoped);
    r.(seen := r.seen + [SeenNow(c, b, file, 0)], phase := Running)
  }

  /** What its checks give. */
  function RunResults(c: Setup, b: State, file: Path, trigger: string, scoped: bool): seq<CheckResult>
    requires |b.history| > 0
  {
    c.run([(1, ContentAt(b.Disk(), c.configOf(file))), (0, ContentAt(b.Disk(), file))], file, trigger, scoped)
  }

  // ---------------------------------------------------------------------------
  // Asking
  // ---------------------------------------------------------------------------

  function Asking(id: nat, file: Path, trigger: string, scoped: bool): seq<Step>
  {
    [Arrive(id, file, trigger, scoped), Capture(id), Capture(id), Capture(id), See(id, 1)]
  }

  /** Stamping so far. */
  function Partly(c: Setup, b: State, file: Path, trigger: string, scoped: bool, k: nat): Request
    requires |b.history| > 0 && k <= 3
  {
    Request(file, trigger, scoped, StampsNow(c, b, file)[..k], Always(b)[..k], [], if k == 3 then Ready else Capturing)
  }

  lemma Captures(c: Setup, b: State, id: nat, file: Path, trigger: string, scoped: bool, k: nat)
    requires |b.history| > 0 && k < 3
    ensures Moves(c, b, id, Partly(c, b, file, trigger, scoped, k), Capture(id), b,
                  Partly(c, b, file, trigger, scoped, k + 1))
  {
    var r, t := Partly(c, b, file, trigger, scoped, k), Partly(c, b, file, trigger, scoped, k + 1);
    assert StampsNow(c, b, file)[..k + 1] == StampsNow(c, b, file)[..k] + [StampAt(b.Disk(), Watched(c, file)[k])];
    assert Always(b)[..k + 1] == Always(b)[..k] + [b.Now()];
    Replaced(b, id, r, t);
  }

  lemma Reads(c: Setup, b: State, id: nat, r: Request, which: nat)
    requires |b.history| > 0 && which < 3 && DaemonRuns.Sees(r.phase, which)
    ensures Moves(c, b, id, r, See(id, which), b, r.(seen := r.seen + [SeenNow(c, b, r.file, which)]))
  {
    Replaced(b, id, r, r.(seen := r.seen + [SeenNow(c, b, r.file, which)]));
  }

  lemma AsksAlone(c: Setup, s: State, id: nat, file: Path, trigger: string, scoped: bool)
    requires s.Started() && id !in s.requests
    ensures From(c, s, Asking(id, file, trigger, scoped)) == Some(With(s, id, Asked(c, s, file, trigger, scoped)))
  {
    Arrives(c, s, id, file, trigger, scoped);
    ReadsConfig(c, s, id, file, trigger, scoped);
    var a := [Arrive(id, file, trigger, scoped)];
    var f := a + [Capture(id)] + [Capture(id)] + [Capture(id)];
    assert f + [See(id, 1)] == Asking(id, file, trigger, scoped);
    hide *;
    CapturesAlone(c, s, a, id, file, trigger, scoped);
    Then(c, s, f, s, id, Partly(c, s, file, trigger, scoped, 3), See(id, 1), s, Asked(c, s, file, trigger, scoped));
  }

  lemma CapturesAlone(c: Setup, s: State, a: seq<Step>, id: nat, file: Path, trigger: string, scoped: bool)
    requires |s.history| > 0 && From(c, s, a) == Some(With(s, id, Partly(c, s, file, trigger, scoped, 0)))
    ensures From(c, s, a + [Capture(id)] + [Capture(id)] + [Capture(id)])
            == Some(With(s, id, Partly(c, s, file, trigger, scoped, 3)))
  {
    hide *;
    Captures(c, s, id, file, trigger, scoped, 0);
    Captures(c, s, id, file, trigger, scoped, 1);
    Captures(c, s, id, file, trigger, scoped, 2);
    Then(c, s, a, s, id, Partly(c, s, file, trigger, scoped, 0), Capture(id), s,
         Partly(c, s, file, trigger, scoped, 1));
    var b := a + [Capture(id)];
    Then(c, s, b, s, id, Partly(c, s, file, trigger, scoped, 1), Capture(id), s,
         Partly(c, s, file, trigger, scoped, 2));
    var e := b + [Capture(id)];
    Then(c, s, e, s, id, Partly(c, s, file, trigger, scoped, 2), Capture(id), s,
         Partly(c, s, file, trigger, scoped, 3));
  }

  lemma Arrives(c: Setup, s: State, id: nat, file: Path, trigger: string, scoped: bool)
    requires s.Started() && id !in s.requests
    ensures From(c, s, [Arrive(id, file, trigger, scoped)]) == Some(With(s, id, Partly(c, s, file, trigger, scoped, 0)))
  {
    assert From(c, s, [Arrive(id, file, trigger, scoped)][..0]) == Some(s);
  }

  lemma ReadsConfig(c: Setup, s: State, id: nat, file: Path, trigger: string, scoped: bool)
    requires s.Started()
    ensures Moves(c, s, id, Partly(c, s, file, trigger, scoped, 3), See(id, 1), s, Asked(c, s, file, trigger, scoped))
  {
    var r := Partly(c, s, file, trigger, scoped, 3);
    Reads(c, s, id, r, 1);
    hide Moves;
    assert r.(seen := r.seen + [SeenNow(c, s, file, 1)]) == Asked(c, s, file, trigger, scoped);
  }

  // ---------------------------------------------------------------------------
  // Running and storing
  // ---------------------------------------------------------------------------

  /** What the tracker makes of the results. */
  function Tracked(c: Setup, b: State, file: Path, trigger: string, scoped: bool): (Pending, seq<CheckResult>)
    requires |b.history| > 0
  {
    GraceCall(b.pending, file, trigger, RunResults(c, b, file, trigger, scoped))
  }

  function Locked(c: Setup, b: State, id: nat, file: Path, trigger: string, scoped: bool): State
    requires |b.history| > 0
  {
    b.(lock := Some(id), pending := Tracked(c, b, file, trigger, scoped).0)
  }

  function Storing(c: Setup, b: State, file: Path, trigger: string, scoped: bool, k: nat): Request
    requires |b.history| > 0 && k <= 3
  {
    Run(c, b, file, trigger, scoped).(phase := Putting(Tracked(c, b, file, trigger, scoped).1,
                                                       StampsNow(c, b, file)[..k], Always(b)[..k], b.Now()))
  }

  lemma LocksToPut(c: Setup, b: State, id: nat, file: Path, trigger: string, scoped: bool)
    requires |b.history| > 0 && b.lock == None
    ensures Moves(c, b, id, Run(c, b, file, trigger, scoped), LockToPut(id), Locked(c, b, id, file, trigger, scoped),
                  Storing(c, b, file, trigger, scoped, 0))
  {
    var r, t := Run(c, b, file, trigger, scoped), Storing(c, b, file, trigger, scoped, 0);
    assert InputsOf(r.seen) == [(1, ContentAt(b.Disk(), c.configOf(file))), (0, ContentAt(b.Disk(), file))];
    Replaced(b, id, r, t);
    hide GraceCall;
  }

  lemma RunSees(c: Setup, b: State, id: nat, file: Path, trigger: string, scoped: bool)
    requires |b.history| > 0
    ensures var r := Asked(c, b, file, trigger, scoped).(phase := Running);
            Moves(c, b, id, r, See(id, 0), b, Run(c, b, file, trigger, scoped))
  {
    Reads(c, b, id, Asked(c, b, file, trigger, scoped).(phase := Running), 0);
  }

  lemma FinishesUnstored(c: Setup, b: State, id: nat, r: Request)
    requires |b.history| > 0 && r.phase.Putting? && |r.before| == 3 && (r.scoped || r.before[0].None?)
    ensures Moves(c, b, id, r, Finish(id), b.(lock := None), r.(phase := Ran(r.phase.results)))
  {
    Replaced(b, id, r, r.(phase := Ran(r.phase.results)));
  }

  /** From the lookup on, without it. */
  function Checking(id: nat): seq<Step>
  {
    [See(id, 0), LockToPut(id)]
  }

  lemma RunsAlone(c: Setup, s: State, steps: seq<Step>, id: nat, file: Path, trigger: string, scoped: bool)
    requires |s.history| > 0 && s.lock == None
    requires From(c, s, steps) == Some(With(s, id, Asked(c, s, file, trigger, scoped).(phase := Running)))
    ensures From(c, s, steps + Checking(id))
            == Some(With(Locked(c, s, id, file, trigger, scoped), id, Storing(c, s, file, trigger, scoped, 0)))
  {
    RunSees(c, s, id, file, trigger, scoped);
    LocksToPut(c, s, id, file, trigger, scoped);
    assert steps + [See(id, 0)] + [LockToPut(id)] == steps + Checking(id);
    hide *;
    Then(c, s, steps, s, id, Asked(c, s, file, trigger, scoped).(phase := Running), See(id, 0),
         s, Run(c, s, file, trigger, scoped));
    Then(c, s, steps + [See(id, 0)], s, id, Run(c, s, file, trigger, scoped), LockToPut(id),
         Locked(c, s, id, file, trigger, scoped), Storing(c, s, file, trigger, scoped, 0));
  }

  /** The state after a run that stored nothing, and its request. */
  function Unstored(c: Setup, s: State, id: nat, file: Path, trigger: string, scoped: bool): State
    requires |s.history| > 0
  {
    var tracked := GraceCall(s.pending, file, trigger, RunResults(c, s, file, trigger, scoped));
    var r := Run(c, s, file, trigger, scoped).(phase := Ran(tracked.1));
    s.(pending := tracked.0, requests := s.requests[id := r])
  }

  lemma FinishesAlone(c: Setup, s: State, steps: seq<Step>, id: nat, file: Path, trigger: string, scoped: bool)
    requires |s.history| > 0 && s.lock == None && (scoped || StampAt(s.Disk(), file) == None)
    requires From(c, s, steps)
             == Some(With(Locked(c, s, id, file, trigger, scoped), id, Storing(c, s, file, trigger, scoped, 0)))
    ensures From(c, s, steps + [Finish(id)]) == Some(Unstored(c, s, id, file, trigger, scoped))
  {
    var b, r := Locked(c, s, id, file, trigger, scoped), Storing(c, s, file, trigger, scoped, 0);
    FinishesUnstored(c, b, id, r);
    assert With(b.(lock := None), id, r.(phase := Ran(r.phase.results))) == Unstored(c, s, id, file, trigger, scoped);
    hide *;
    Then(c, s, steps, b, id, r, Finish(id), b.(lock := None), r.(phase := Ran(r.phase.results)));
  }

  /**
   * A request with changed lines, alone on a quiet disk with a free lock, does not look into the cache: it runs,
   * replies with what its checks give, and stores nothing.
   */
  lemma ScopedRequestRuns(c: Setup, s: State, id: nat, file: Path, trigger: string)
    requires s.Started() && s.lock == None && id !in s.requests
    ensures From(c, s, Asking(id, file, trigger, true) + [SkipGet(id)] + Checking(id) + [Finish(id)])
            == Some(Unstored(c, s, id, file, trigger, true))
  {
    AsksAlone(c, s, id, file, trigger, true);
    var r, steps := Asked(c, s, file, trigger, true), Asking(id, file, trigger, true);
    Replaced(s, id, r, r.(phase := Running));
    assert Moves(c, s, id, r, SkipGet(id), s, r.(phase := Running));
    hide *;
    Then(c, s, steps, s, id, r, SkipGet(id), s, r.(phase := Running));
    RunsAlone(c, s, steps + [SkipGet(id)], id, file, trigger, true);
    FinishesAlone(c, s, steps + [SkipGet(id)] + Checking(id), id, file, trigger, true);
  }

  // ---------------------------------------------------------------------------
  // Looking into the cache
  // ---------------------------------------------------------------------------

  function LookingUp(id: nat): seq<Step>
  {
    [LockToGet(id), FindStamp(id), FindStamp(id), FindStamp(id)]
  }

  function Finding(c: Setup, b: State, file: Path, trigger: string, k: nat): Request
    requires |b.history| > 0 && k <= 3
  {
    Asked(c, b, file, trigger, false).(phase := Getting(StampsNow(c, b, file)[..k], Always(b)[..k]))
  }

  lemma Finds(c: Setup, b: State, id: nat, file: Path, trigger: string, k: nat)
    requires |b.history| > 0 && k < 3
    ensures Moves(c, b, id, Finding(c, b, file, trigger, k), FindStamp(id), b, Finding(c, b, file, trigger, k + 1))
  {
    assert StampsNow(c, b, file)[..k + 1] == StampsNow(c, b, file)[..k] + [StampAt(b.Disk(), Watched(c, file)[k])];
    assert Always(b)[..k + 1] == Always(b)[..k] + [b.Now()];
    Replaced(b, id, Finding(c, b, file, trigger, k), Finding(c, b, file, trigger, k + 1));
  }

  lemma LocksToGet(c: Setup, b: State, id: nat, file: Path, trigger: string)
    requires |b.history| > 0 && b.lock == None
    ensures Moves(c, b, id, Asked(c, b, file, trigger, false), LockToGet(id), b.(lock := Some(id)),
                  Finding(c, b.(lock := Some(id)), file, trigger, 0))
  {
    Replaced(b, id, Asked(c, b, file, trigger, false), Finding(c, b, file, trigger, 0));
  }

  lemma LooksUpAlone(c: Setup, s: State, id: nat, file: Path, trigger: string)
    requires s.Started() && s.lock == None && id !in s.requests
    ensures From(c, s, Asking(id, file, trigger, false) + LookingUp(id))
            == Some(With(s.(lock := Some(id)), id, Finding(c, s.(lock := Some(id)), file, trigger, 3)))
  {
    var a, b := Asking(id, file, trigger, false), s.(lock := Some(id));
    assert a + [LockToGet(id)] + [FindStamp(id)] + [FindStamp(id)] + [FindStamp(id)] == a + LookingUp(id);
    assert |s.history| > 0;
    hide *;
    AsksAlone(c, s, id, file, trigger, false);
    LocksToGet(c, s, id, file, trigger);
    Then(c, s, a, s, id, Asked(c, s, file, trigger, false), LockToGet(id), b, Finding(c, b, file, trigger, 0));
    FindsAlone(c, s, a + [LockToGet(id)], b, id, file, trigger);
  }

  lemma FindsAlone(c: Setup, s: State, a: seq<Step>, b: State, id: nat, file: Path, trigger: string)
    requires |b.history| > 0 && From(c, s, a) == Some(With(b, id, Finding(c, b, file, trigger, 0)))
    ensures From(c, s, a + [FindStamp(id)] + [FindStamp(id)] + [FindStamp(id)])
            == Some(With(b, id, Finding(c, b, file, trigger, 3)))
  {
    hide *;
    Finds(c, b, id, file, trigger, 0);
    Finds(c, b, id, file, trigger, 1);
    Finds(c, b, id, file, trigger, 2);
    Then(c, s, a, b, id, Finding(c, b, file, trigger, 0), FindStamp(id), b, Finding(c, b, file, trigger, 1));
    var f := a + [FindStamp(id)];
    Then(c, s, f, b, id, Finding(c, b, file, trigger, 1), FindStamp(id), b, Finding(c, b, file, trigger, 2));
    var g := f + [FindStamp(id)];
    Then(c, s, g, b, id, Finding(c, b, file, trigger, 2), FindStamp(id), b, Finding(c, b, file, trigger, 3));
  }

  /** The cache has an entry with these stamps and this trigger. */
  predicate Serves(c: Setup, s: State, file: Path, trigger: string)
    requires |s.history| > 0
  {
    && file in s.entries && s.entries[file].trigger == trigger
    && [Some(s.entries[file].fileStamp), s.entries[file].configStamp, s.entries[file].registryStamp]
       == StampsNow(c, s, file)
  }

  lemma RepliesAlone(c: Setup, s: State, id: nat, file: Path, trigger: string)
    requires s.Started() && s.lock == None && id !in s.requests && s.origins.Keys == s.entries.Keys
    ensures var r := Asked(c, s, file, trigger, false);
            From(c, s, Asking(id, file, trigger, false) + LookingUp(id) + [Reply(id)])
            == Some(With(s, id, r.(phase := if Serves(c, s, file, trigger)
                                            then Hit(s.entries[file].results, s.origins[file],
                                                     StampsNow(c, s, file), Always(s))
                                            else Running)))
  {
    LooksUpAlone(c, s, id, file, trigger);
    var b := s.(lock := Some(id));
    var r := Finding(c, b, file, trigger, 3);
    assert StampsNow(c, b, file)[..3] == StampsNow(c, s, file) && Always(b)[..3] == Always(s);
    var t := AfterReply(c, s.entries, s.origins, r);
    Replaced(s, id, r, t);
    assert file in s.origins <==> file in s.origins.Keys;
    assert Moves(c, b, id, r, Reply(id), s, t);
    AnsweredIffServes(c, s, file, trigger, r);
    hide *;
    Then(c, s, Asking(id, file, trigger, false) + LookingUp(id), b, id, r, Reply(id), s, t);
  }

  lemma AnsweredIffServes(c: Setup, s: State, file: Path, trigger: string, r: Request)
    requires |s.history| > 0
             && r == Asked(c, s, file, trigger, false).(phase := Getting(StampsNow(c, s, file), Always(s)))
    requires file in s.origins <==> file in s.entries
    ensures AfterReply(c, s.entries, s.origins, r)
            == r.(phase := if Serves(c, s, file, trigger)
                           then Hit(s.entries[file].results, s.origins[file], StampsNow(c, s, file), Always(s))
                           else Running)
  {
  }

  /**
   * A request without changed lines, alone on a quiet disk with a free lock, is answered from the cache when that
   * has an entry with its trigger and the present stamps.
   */
  lemma UnchangedFileIsServed(c: Setup, s: State, id: nat, file: Path, trigger: string)
    requires Inv(c, s) && s.lock == None && id !in s.requests && Serves(c, s, file, trigger)
    ensures From(c, s, Asking(id, file, trigger, false) + LookingUp(id) + [Reply(id)])
            == Some(With(s, id, Asked(c, s, file, trigger, false).(phase :=
                 Hit(s.entries[file].results, s.origins[file], StampsNow(c, s, file), Always(s)))))
  {
    RepliesAlone(c, s, id, file, trigger);
  }

  // ---------------------------------------------------------------------------
  // Storing
  // ---------------------------------------------------------------------------

  lemma Rechecks(c: Setup, s: State, b: State, id: nat, file: Path, trigger: string, k: nat)
    requires |s.history| > 0 && b.history == s.history && k < 3
    ensures Moves(c, b, id, Storing(c, s, file, trigger, false, k), Recheck(id), b,
                  Storing(c, s, file, trigger, false, k + 1))
  {
    assert StampsNow(c, s, file)[..k + 1] == StampsNow(c, s, file)[..k] + [StampAt(s.Disk(), Watched(c, file)[k])];
    assert Always(s)[..k + 1] == Always(s)[..k] + [s.Now()];
    Replaced(b, id, Storing(c, s, file, trigger, false, k), Storing(c, s, file, trigger, false, k + 1));
    hide GraceCall;
  }

  /** The state after a run that was stored. */
  function Stored(c: Setup, s: State, id: nat, file: Path, trigger: string): State
    requires |s.history| > 0 && StampAt(s.Disk(), file).Some?
  {
    var t := Unstored(c, s, id, file, trigger, false);
    var stamps := StampsNow(c, s, file);
    t.(entries := s.entries[file := CacheEntry(stamps[0].value, stamps[1], stamps[2], trigger,
                                               t.requests[id].phase.reported)],
       origins := s.origins[file := Origin(false, Always(s), Always(s), t.requests[id].seen)])
  }

  lemma FinishesStored(c: Setup, s: State, b: State, id: nat, file: Path, trigger: string)
    requires |s.history| > 0 && s.lock == None && b == Locked(c, s, id, file, trigger, false)
    requires StampAt(s.Disk(), file).Some?
    ensures var r := Storing(c, s, file, trigger, false, 3);
            Enabled(With(b, id, r), Finish(id))
            && Next(c, With(b, id, r), Finish(id)) == Stored(c, s, id, file, trigger)
  {
    var r := Storing(c, s, file, trigger, false, 3);
    assert StampsNow(c, s, file)[..3] == StampsNow(c, s, file) && Always(s)[..3] == Always(s);
    Replaced(b, id, r, r.(phase := Ran(r.phase.results)));
    hide GraceCall;
  }

  /**
   * Otherwise it runs and replies with what its checks give; if the file exists, that is stored under the present
   * stamps.
   */
  lemma ChangedFileRuns(c: Setup, s: State, id: nat, file: Path, trigger: string)
    requires Inv(c, s) && s.lock == None && id !in s.requests && !Serves(c, s, file, trigger)
    ensures var steps := Asking(id, file, trigger, false) + LookingUp(id) + [Reply(id)] + Checking(id);
            if StampAt(s.Disk(), file).None? then
              From(c, s, steps + [Finish(id)]) == Some(Unstored(c, s, id, file, trigger, false))
            else
              From(c, s, steps + [Recheck(id)] + [Recheck(id)] + [Recheck(id)] + [Finish(id)])
              == Some(Stored(c, s, id, file, trigger))
  {
    RepliesAlone(c, s, id, file, trigger);
    var a := Asking(id, file, trigger, false) + LookingUp(id) + [Reply(id)];
    hide From, With, Asked, Locked, Storing, Unstored, Stored, Asking, LookingUp, Checking, Inv;
    RunsAlone(c, s, a, id, file, trigger, false);
    if StampAt(s.Disk(), file).None? {
      FinishesAlone(c, s, a + Checking(id), id, file, trigger, false);
    } else {
      StoresAlone(c, s, a + Checking(id), id, file, trigger);
    }
  }

  lemma StoresAlone(c: Setup, s: State, steps: seq<Step>, id: nat, file: Path, trigger: string)
    requires |s.history| > 0 && s.lock == None && StampAt(s.Disk(), file).Some?
    requires From(c, s, steps)
             == Some(With(Locked(c, s, id, file, trigger, false), id, Storing(c, s, file, trigger, false, 0)))
    ensures From(c, s, steps + [Recheck(id)] + [Recheck(id)] + [Recheck(id)] + [Finish(id)])
            == Some(Stored(c, s, id, file, trigger))
  {
    var b := Locked(c, s, id, file, trigger, false);
    assert b.history == s.history;
    FinishesStored(c, s, b, id, file, trigger);
    hide *;
    RechecksAlone(c, s, b, steps, id, file, trigger);
    LastStep(c, s, steps + [Recheck(id)] + [Recheck(id)] + [Recheck(id)],
             With(b, id, Storing(c, s, file, trigger, false, 3)), Finish(id));
  }

  lemma RechecksAlone(c: Setup, s: State, b: State, steps: seq<Step>, id: nat, file: Path, trigger: string)
    requires |s.history| > 0 && b.history == s.history
    requires From(c, s, steps) == Some(With(b, id, Storing(c, s, file, trigger, false, 0)))
    ensures From(c, s, steps + [Recheck(id)] + [Recheck(id)] + [Recheck(id)])
            == Some(With(b, id, Storing(c, s, file, trigger, false, 3)))
  {
    hide *;
    Rechecks(c, s, b, id, file, trigger, 0);
    Rechecks(c, s, b, id, file, trigger, 1);
    Rechecks(c, s, b, id, file, trigger, 2);
    Then(c, s, steps, b, id, Storing(c, s, file, trigger, false, 0), Recheck(id), b,
         Storing(c, s, file, trigger, false, 1));
    var f := steps + [Recheck(id)];
    Then(c, s, f, b, id, Storing(c, s, file, trigger, false, 1), Recheck(id), b,
         Storing(c, s, file, trigger, false, 2));
    var g := f + [Recheck(id)];
    Then(c, s, g, b, id, Storing(c, s, file, trigger, false, 2), Recheck(id), b,
         Storing(c, s, file, trigger, false, 3));
  }

  lemma LastStep(c: Setup, s: State, steps: seq<Step>, p: State, step: Step)
    requires From(c, s, steps) == Some(p) && Enabled(p, step)
    ensures From(c, s, steps + [step]) == Some(Next(c, p, step))
  {
    hide Enabled, Next;
    assert (steps + [step])[..|steps + [step]| - 1] == steps;
  }
}
