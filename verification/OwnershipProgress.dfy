/** What the ownership protocol achieves: starts that end in serving, displacements that end with a new owner. */
module OwnershipProgress {
  import opened Wrappers
  import opened Ownership
  import opened OwnershipGaps

  // ---------------------------------------------------------------------------
  // Moves of one process
  // ---------------------------------------------------------------------------

  /** These events, all of process `q`. */
  function By(q: Pid, events: seq<Event>): seq<Step>
  {
    seq(|events|, i requires 0 <= i < |events| => Step(q, events[i]))
  }

  /** `q` alone, by these events, leads from `s` to `t`. */
  ghost predicate Alone(s: State, q: Pid, events: seq<Event>, t: State)
  {
    Leads(s, By(q, events), t)
  }

  lemma AloneOne(s: State, q: Pid, e: Event)
    requires Enabled(s, Step(q, e))
    ensures Alone(s, q, [e], Next(s, Step(q, e)))
  {
    assert By(q, [e]) == [Step(q, e)];
    LeadsOne(s, Step(q, e));
  }

  lemma AloneMore(s: State, q: Pid, events: seq<Event>, t: State, more: seq<Event>, u: State)
    requires Alone(s, q, events, t) && Alone(t, q, more, u)
    ensures Alone(s, q, events + more, u)
  {
    hide Leads;
    assert By(q, events + more) == By(q, events) + By(q, more);
    LeadsMore(s, By(q, events), t, By(q, more), u);
  }

  /** One more event, which takes `q` from phase `x` to `y` and the rest of the state from `b` to `b'`. */
  ghost predicate Moves(b: State, q: Pid, x: Phase, e: Event, b': State, y: Phase)
  {
    Enabled(At(b, q, x), Step(q, e)) && Next(At(b, q, x), Step(q, e)) == At(b', q, y)
  }

  lemma Then(s: State, q: Pid, events: seq<Event>, b: State, x: Phase, e: Event, b': State, y: Phase)
    requires Alone(s, q, events, At(b, q, x)) && Moves(b, q, x, e, b', y)
    ensures Alone(s, q, events + [e], At(b', q, y))
  {
    hide Enabled, Next, Leads, Alone, At;
    AloneOne(At(b, q, x), q, e);
    AloneMore(s, q, events, At(b, q, x), [e], At(b', q, y));
  }

  lemma TakesFreeLock(b: State, q: Pid)
    requires b.lock == None
    ensures Moves(b, q, Trying, Take, b.(lock := Some(q)), Truncating)
    ensures q !in b.stoppers ==> Moves(b, q, Retaking, Take, b.(lock := Some(q)), Truncating)
  {
    RepeatedMove(b.(lock := Some(q)), q, Trying, Truncating);
    RepeatedMove(b.(lock := Some(q)), q, Retaking, Truncating);
  }

  lemma Records(b: State, q: Pid, ok: bool)
    ensures Moves(b, q, Truncating, Truncate(ok), if ok then b.(recorded := None) else b,
                  if ok then Writing else Clearing)
    ensures Moves(b, q, Writing, Write(ok), if ok then b.(recorded := Some(q)) else b, Clearing)
  {
    var b1, b2 := if ok then b.(recorded := None) else b, if ok then b.(recorded := Some(q)) else b;
    RepeatedMove(b1, q, Truncating, if ok then Writing else Clearing);
    RepeatedMove(b2, q, Writing, Clearing);
  }

  lemma Clears(b: State, q: Pid, x: Phase, probe: Probe)
    requires (x == Clearing || x == Evicting) && ProbeFits(At(b, q, x), probe) && !probe.Answered?
    ensures Moves(b, q, x, Ping(probe), b, Unlinking)
  {
    RepeatedMove(b, q, x, Unlinking);
    hide ProbeFits;
  }

  lemma Listens(b: State, q: Pid)
    ensures Moves(b, q, Unlinking, Unlink(true), b.(socket := None), Binding)
    ensures b.socket == None ==> Moves(b, q, Binding, Bind, b.(socket := Some(q)), Serving)
  {
    RepeatedMove(b.(socket := None), q, Unlinking, Binding);
    RepeatedMove(b.(socket := Some(q)), q, Binding, Serving);
  }

  // ---------------------------------------------------------------------------
  // Whoever holds the lock comes to serve, unless an old daemon keeps answering
  // ---------------------------------------------------------------------------

  /** How the record is written; failing to is not fatal. */
  function Recording(truncated: bool, written: bool): seq<Event>
  {
    if truncated then [Truncate(true), Write(written)] else [Truncate(false)]
  }

  function RecordAfter(b: State, q: Pid, truncated: bool, written: bool): State
  {
    if truncated then b.(recorded := if written then Some(q) else None) else b
  }

  lemma RecordsAlone(s: State, q: Pid, events: seq<Event>, b: State, truncated: bool, written: bool)
    requires Alone(s, q, events, At(b, q, Truncating))
    ensures Alone(s, q, events + Recording(truncated, written), At(RecordAfter(b, q, truncated, written), q, Clearing))
  {
    hide Alone, At, Moves;
    Records(b, q, truncated);
    if truncated {
      Then(s, q, events, b, Truncating, Truncate(true), b.(recorded := None), Writing);
      Records(b.(recorded := None), q, written);
      Then(s, q, events + [Truncate(true)], b.(recorded := None), Writing, Write(written),
           RecordAfter(b, q, truncated, written), Clearing);
      assert events + [Truncate(true)] + [Write(written)] == events + Recording(truncated, written);
    } else {
      Then(s, q, events, b, Truncating, Truncate(false), b, Clearing);
    }
  }

  /** With nobody answering, the holder clears the path and listens. */
  lemma ServesAlone(s: State, q: Pid, events: seq<Event>, b: State, x: Phase, probe: Probe)
    requires Alone(s, q, events, At(b, q, x))
    requires (x == Clearing || x == Evicting) && ProbeFits(At(b, q, x), probe) && !probe.Answered?
    ensures Alone(s, q, events + [Ping(probe), Unlink(true), Bind], At(b.(socket := Some(q)), q, Serving))
  {
    hide *;
    Clears(b, q, x, probe);
    Then(s, q, events, b, x, Ping(probe), b, Unlinking);
    Listens(b, q);
    Then(s, q, events + [Ping(probe)], b, Unlinking, Unlink(true), b.(socket := None), Binding);
    Listens(b.(socket := None), q);
    Then(s, q, events + [Ping(probe)] + [Unlink(true)], b.(socket := None), Binding, Bind,
         b.(socket := Some(q)), Serving);
    assert events + [Ping(probe)] + [Unlink(true)] + [Bind] == events + [Ping(probe), Unlink(true), Bind];
  }

  /** From taking the lock to listening. */
  function Settling(truncated: bool, written: bool, probe: Probe): seq<Event>
  {
    [Take] + Recording(truncated, written) + [Ping(probe), Unlink(true), Bind]
  }

  /** The state after `q` has taken over. */
  function Owned(b: State, q: Pid, truncated: bool, written: bool): State
  {
    RecordAfter(b.(lock := Some(q)), q, truncated, written).(socket := Some(q), procs := b.procs[q := Serving])
  }

  lemma SettlingInParts(events: seq<Event>, truncated: bool, written: bool, probe: Probe)
    ensures events + [Take] + Recording(truncated, written) + [Ping(probe), Unlink(true), Bind]
            == events + Settling(truncated, written, probe)
  {
  }

  lemma SettlesAlone(s: State, q: Pid, events: seq<Event>, b: State, x: Phase, truncated: bool, written: bool,
                     probe: Probe)
    requires Alone(s, q, events, At(b, q, x)) && b.lock == None
    requires x == Trying || (x == Retaking && q !in b.stoppers)
    requires !probe.Answered? && ProbeFits(At(b, q, Clearing), probe)
    ensures Alone(s, q, events + Settling(truncated, written, probe), Owned(b, q, truncated, written))
  {
    var b1 := b.(lock := Some(q));
    var b2 := RecordAfter(b1, q, truncated, written);
    assert ProbeFits(At(b2, q, Clearing), probe);
    TakesFreeLock(b, q);
    assert At(b2.(socket := Some(q)), q, Serving) == Owned(b, q, truncated, written);
    hide *;
    Then(s, q, events, b, x, Take, b1, Truncating);
    RecordsAlone(s, q, events + [Take], b1, truncated, written);
    ServesAlone(s, q, events + [Take] + Recording(truncated, written), b2, Clearing, probe);
    SettlingInParts(events, truncated, written, probe);
  }

  /** A start on a free lock ends in serving when nobody answers, recorded or not. */
  lemma StartServes(s: State, q: Pid, truncated: bool, written: bool, probe: Probe)
    requires s.lock == None && q !in s.procs && !s.Answers() && !probe.Answered? && ProbeFits(s, probe)
    ensures Alone(s, q, [Launch] + Settling(truncated, written, probe), Owned(s, q, truncated, written))
  {
    LaunchStep(s, q);
    AloneOne(s, q, Launch);
    assert ProbeFits(At(s, q, Clearing), probe);
    hide Alone, ProbeFits, Owned, Settling;
    SettlesAlone(s, q, [Launch], s, Trying, truncated, written, probe);
  }

  /** So does a start that waited for the previous owner, once that has gone. */
  lemma WaiterServes(s: State, q: Pid, wedged: bool, probe: Probe)
    requires s.lock == None && s.Is(q, Waiting(wedged)) && !s.Answers() && !probe.Answered? && ProbeFits(s, probe)
    ensures Alone(s, q, [Retry] + Settling(true, true, probe), Owned(s, q, true, true))
  {
    assert Next(s, Step(q, Retry)) == At(s, q, Trying);
    AloneOne(s, q, Retry);
    assert ProbeFits(At(s, q, Clearing), probe);
    hide Alone, ProbeFits, Owned, Settling;
    SettlesAlone(s, q, [Retry], s, Trying, true, true, probe);
  }

  /** And a holder that asked an old daemon to exit, once that does not answer any more. */
  lemma EvicterServes(s: State, q: Pid, probe: Probe)
    requires s.Is(q, Evicting) && !probe.Answered? && ProbeFits(s, probe)
    ensures Alone(s, q, [Ping(probe), Unlink(true), Bind], s.(socket := Some(q), procs := s.procs[q := Serving]))
  {
    assert s.procs[q := Evicting] == s.procs;
    assert At(s, q, Evicting) == s && By(q, []) == [];
    assert Alone(s, q, [], At(s, q, Evicting));
    hide Alone, ProbeFits;
    ServesAlone(s, q, [], s, Evicting, probe);
    assert [] + [Ping(probe), Unlink(true), Bind] == [Ping(probe), Unlink(true), Bind];
  }

  /** A start leaves an answering daemon of its own version alone, and one of another version once it has waited. */
  lemma StartYields(s: State, q: Pid)
    requires Inv(s) && s.Answers() && q !in s.procs
    ensures Alone(s, q, [Launch] + [Busy] + [Ping(Answered(true))], At(s, q, Gone))
    ensures Alone(s, q, [Launch] + [Busy] + [Ping(Answered(false))] + [Timeout], At(s, q, Gone))
  {
    LaunchStep(s, q);
    AloneOne(s, q, Launch);
    assert s.lock != Some(q);
    hide *;
    BusyMoves(s, q, false);
    YieldMoves(s, q);
    TimeoutMoves(s, q);
    var a := [Launch] + [Busy];
    Then(s, q, [Launch], s, Trying, Busy, s, Probing);
    Then(s, q, a, s, Probing, Ping(Answered(true)), s, Gone);
    Then(s, q, a, s, Probing, Ping(Answered(false)), s, Waiting(false));
    Then(s, q, a + [Ping(Answered(false))], s, Waiting(false), Timeout, s, Gone);
  }

  lemma BusyMoves(s: State, q: Pid, wedged: bool)
    ensures Moves(s, q, Trying, Busy, s, Probing) && Moves(s, q, Waiting(wedged), Retry, s, Trying)
  {
    RepeatedMove(s, q, Trying, Probing);
    RepeatedMove(s, q, Waiting(wedged), Trying);
  }

  lemma YieldMoves(s: State, q: Pid)
    requires s.Answers() && q !in s.procs && s.lock != Some(q)
    ensures Moves(s, q, Probing, Ping(Answered(true)), s, Gone)
    ensures Moves(s, q, Probing, Ping(Answered(false)), s, Waiting(false))
  {
    RepeatedMove(s, q, Probing, Gone);
    RepeatedMove(s, q, Probing, Waiting(false));
  }

  lemma TimeoutMoves(s: State, q: Pid)
    requires s.lock != Some(q)
    ensures Moves(s, q, Waiting(false), Timeout, s, Gone)
  {
    RepeatedMove(s, q, Waiting(false), Gone);
  }

  /** A holder that an old daemon keeps answering gives the lock up again. */
  lemma HolderYields(s: State, q: Pid, sameVersion: bool)
    requires s.Is(q, Clearing) && s.lock == Some(q) && s.Answers()
    ensures Alone(s, q, [Ping(Answered(sameVersion)), Timeout], s.(lock := None, procs := s.procs[q := Gone]))
  {
    PingStep(s, q, Answered(sameVersion));
    var t := Moved(s, q, Evicting);
    AloneOne(s, q, Ping(Answered(sameVersion)));
    AloneOne(t, q, Timeout);
    RepeatedMove(s.(lock := None), q, Evicting, Gone);
    var u := s.(lock := None, procs := s.procs[q := Gone]);
    assert Next(t, Step(q, Timeout)) == u;
    hide Alone, Enabled, Next;
    AloneMore(s, q, [Ping(Answered(sameVersion))], t, [Timeout], u);
    assert [Ping(Answered(sameVersion))] + [Timeout] == [Ping(Answered(sameVersion)), Timeout];
  }

  // ---------------------------------------------------------------------------
  // A displacer that finds the lock free becomes the owner
  // ---------------------------------------------------------------------------

  /** Where a displacer looks whether the lock is free. */
  predicate LooksAtLock(phase: Phase)
  {
    phase == Looking || phase.AwaitingTerm? || phase == AwaitingKill || phase == LastLook
  }

  lemma FindsFree(b: State, q: Pid, x: Phase)
    requires LooksAtLock(x) && b.lock == None
    ensures Moves(b, q, x, Look(true), b, Retaking)
  {
    RepeatedMove(b, q, x, Retaking);
  }

  ghost predicate Serves(s: State, q: Pid)
  {
    s.Is(q, Serving) && s.lock == Some(q) && s.recorded == Some(q) && s.socket == Some(q)
  }

  /** `q` can come to serve by its own steps alone. */
  ghost predicate CanServe(s: State, q: Pid)
  {
    exists events, u :: Alone(s, q, events, u) && Serves(u, q)
  }

  /** A process about to take the lock, or holding it without having found the socket silent. */
  predicate Held(phase: Phase)
  {
    phase in {Gone, Retaking, Truncating, Writing, Clearing, Evicting}
  }

  /** While an old daemon answers, the steps of `q` do not bring it past that. */
  lemma HeldStays(s: State, q: Pid, e: Event)
    requires s.Answers() && q in s.procs && Held(s.procs[q]) && Enabled(s, Step(q, e))
    ensures var t := Next(s, Step(q, e)); t.Answers() && q in t.procs && Held(t.procs[q])
  {
    match s.procs[q]
    case Gone =>
    case Retaking =>
    case Truncating =>
    case Writing =>
    case Clearing =>
    case Evicting =>
  }

  lemma {:induction false} HeldForGood(s: State, q: Pid, events: seq<Event>, u: State)
    requires s.Answers() && q in s.procs && Held(s.procs[q]) && Alone(s, q, events, u)
    ensures q in u.procs && Held(u.procs[q])
    decreases |events|
  {
    hide Enabled, Next, Held;
    if events != [] {
      assert By(q, events)[0] == Step(q, events[0]) && By(q, events)[1..] == By(q, events[1..]);
      HeldStays(s, q, events[0]);
      HeldForGood(Next(s, Step(q, events[0])), q, events[1..], u);
    }
  }

  /**
   * A displacer, not a `daemon stop` command, that looks at a free lock does not give up: it is alive after that look,
   * and by its own steps it can take the lock, record itself and serve exactly when nobody answers on the socket.
   */
  lemma DisplacerTakesOverIff(s: State, q: Pid)
    requires s.lock == None && q in s.procs && LooksAtLock(s.procs[q]) && q !in s.stoppers
    ensures Enabled(s, Step(q, Look(true)))
    ensures var t := Next(s, Step(q, Look(true))); t.Live(q) && (CanServe(t, q) <==> !s.Answers())
  {
    var t := Next(s, Step(q, Look(true)));
    assert s.procs[q := s.procs[q]] == s.procs;
    FindsFree(s, q, s.procs[q]);
    assert t == At(s, q, Retaking);
    if s.Answers() {
      forall events, u | Alone(t, q, events, u) ensures !Serves(u, q) {
        HeldForGood(t, q, events, u);
      }
    } else {
      RetakerServes(s, q);
    }
  }

  lemma RetakerServes(s: State, q: Pid)
    requires s.lock == None && !s.Answers() && q !in s.stoppers
    requires q in s.procs && LooksAtLock(s.procs[q])
    ensures CanServe(At(s, q, Retaking), q)
  {
    assert ProbeFits(At(s, q, Clearing), Dead);
    assert Serves(Owned(s, q, true, true), q);
    assert By(q, []) == [] && Alone(At(s, q, Retaking), q, [], At(s, q, Retaking));
    hide Alone, ProbeFits, Owned, Settling, At, Serves;
    SettlesAlone(At(s, q, Retaking), q, [], s, Retaking, true, true, Dead);
    assert Alone(At(s, q, Retaking), q, [] + Settling(true, true, Dead), Owned(s, q, true, true));
  }

  // ---------------------------------------------------------------------------
  // A hung holder is replaced
  // ---------------------------------------------------------------------------

  /** What a start does about a holder that does not answer: SIGTERM, and SIGKILL if that does not help. */
  function Displacing(dies: bool): seq<Event>
  {
    [Launch, Busy, Ping(Wedged), Timeout, Look(false), ReadRecord, Verify(true), Ping(Wedged), ReadRecord]
    + (if dies then [Signal(true)] else [Signal(false), Timeout, Verify(true), Signal(true)])
    + [Look(true)]
  }

  /** `v` holds the lock and listens, and does not answer. */
  predicate HungHolder(s: State, v: Pid)
  {
    && s.Is(v, Serving) && v in s.hung && v !in s.stoppers
    && s.lock == Some(v) && s.recorded == Some(v) && s.socket == Some(v)
  }

  lemma WaitingMoves(b: State, q: Pid, v: Pid)
    requires HungHolder(b, v) && q != v
    ensures Moves(b, q, Trying, Busy, b, Probing)
    ensures Moves(b, q, Probing, Ping(Wedged), b, Waiting(true))
    ensures Moves(b, q, Waiting(true), Timeout, b, Looking)
    ensures Moves(b, q, Looking, Look(false), b, Reading)
  {
    RepeatedMove(b, q, Trying, Probing);
    RepeatedMove(b, q, Probing, Waiting(true));
    RepeatedMove(b, q, Waiting(true), Looking);
    RepeatedMove(b, q, Looking, Reading);
  }

  lemma TargetingMoves(b: State, q: Pid, v: Pid)
    requires HungHolder(b, v) && q != v
    ensures Moves(b, q, Reading, ReadRecord, b, Verifying(v))
    ensures Moves(b, q, Verifying(v), Verify(true), b, Reprobing(v))
  {
    RepeatedMove(b, q, Reading, Verifying(v));
    RepeatedMove(b, q, Verifying(v), Reprobing(v));
  }

  lemma ConfirmingMoves(b: State, q: Pid, v: Pid)
    requires HungHolder(b, v) && q != v
    ensures Moves(b, q, Reprobing(v), Ping(Wedged), b, Rereading(v))
    ensures Moves(b, q, Rereading(v), ReadRecord, b, Terminating(v))
  {
    RepeatedMove(b, q, Reprobing(v), Rereading(v));
    RepeatedMove(b, q, Rereading(v), Terminating(v));
  }

  lemma SignalMoves(b: State, q: Pid, v: Pid)
    requires HungHolder(b, v) && q != v
    ensures Moves(b, q, Terminating(v), Signal(true), Exited(b, v), AwaitingTerm(v))
    ensures Moves(b, q, Terminating(v), Signal(false), b, AwaitingTerm(v))
    ensures Moves(b, q, AwaitingTerm(v), Timeout, b, Reverifying(v))
    ensures Moves(b, q, Reverifying(v), Verify(true), b, Killing(v))
    ensures Moves(b, q, Killing(v), Signal(true), Exited(b, v), AwaitingKill)
  {
    RepeatedMove(b, q, Terminating(v), AwaitingTerm(v));
    RepeatedMove(b, q, AwaitingTerm(v), Reverifying(v));
    RepeatedMove(b, q, Reverifying(v), Killing(v));
    ExitAside(b, q, v, Terminating(v), AwaitingTerm(v));
    ExitAside(b, q, v, Killing(v), AwaitingKill);
  }

  lemma ExitAside(b: State, q: Pid, v: Pid, x: Phase, y: Phase)
    requires q != v && b.lock == Some(v) && y != Gone
    ensures Moved(Exited(At(b, q, x), v), q, y) == At(Exited(b, v), q, y)
  {
    assert b.procs[q := x][v := Gone][q := y] == b.procs[v := Gone][q := y];
  }

  lemma AimEvents(a: seq<Event>, b: seq<Event>, c: seq<Event>, e: seq<Event>, f: seq<Event>, g: seq<Event>,
                  h: seq<Event>)
    requires a == [Launch] + [Busy] && b == a + [Ping(Wedged)] && c == b + [Timeout] && e == c + [Look(false)]
    requires f == e + [ReadRecord] && g == f + [Verify(true)] && h == g + [Ping(Wedged)]
    ensures h + [ReadRecord]
            == [Launch, Busy, Ping(Wedged), Timeout, Look(false), ReadRecord, Verify(true), Ping(Wedged), ReadRecord]
  {
  }

  /** Up to the signal. */
  lemma AimsAlone(s: State, q: Pid, v: Pid)
    requires HungHolder(s, v) && q !in s.procs
    ensures Alone(s, q, [Launch, Busy, Ping(Wedged), Timeout, Look(false), ReadRecord, Verify(true), Ping(Wedged),
                         ReadRecord],
                  At(s, q, Terminating(v)))
  {
    LaunchStep(s, q);
    AloneOne(s, q, Launch);
    assert q != v;
    hide *;
    WaitingMoves(s, q, v);
    TargetingMoves(s, q, v);
    ConfirmingMoves(s, q, v);
    Then(s, q, [Launch], s, Trying, Busy, s, Probing);
    var a := [Launch] + [Busy];
    Then(s, q, a, s, Probing, Ping(Wedged), s, Waiting(true));
    var b := a + [Ping(Wedged)];
    Then(s, q, b, s, Waiting(true), Timeout, s, Looking);
    var c := b + [Timeout];
    Then(s, q, c, s, Looking, Look(false), s, Reading);
    var e := c + [Look(false)];
    Then(s, q, e, s, Reading, ReadRecord, s, Verifying(v));
    var f := e + [ReadRecord];
    Then(s, q, f, s, Verifying(v), Verify(true), s, Reprobing(v));
    var g := f + [Verify(true)];
    Then(s, q, g, s, Reprobing(v), Ping(Wedged), s, Rereading(v));
    var h := g + [Ping(Wedged)];
    Then(s, q, h, s, Rereading(v), ReadRecord, s, Terminating(v));
    AimEvents(a, b, c, e, f, g, h);
  }

  /** The holder dies of SIGTERM. */
  lemma TermFrees(s: State, q: Pid, v: Pid, events: seq<Event>, t: State)
    requires HungHolder(s, v) && q != v && Alone(s, q, events, At(s, q, Terminating(v))) && t == Exited(s, v)
    ensures Alone(s, q, events + [Signal(true), Look(true)], At(t, q, Retaking))
  {
    assert t.lock == None;
    hide *;
    SignalMoves(s, q, v);
    FindsFree(t, q, AwaitingTerm(v));
    Then(s, q, events, s, Terminating(v), Signal(true), t, AwaitingTerm(v));
    Then(s, q, events + [Signal(true)], t, AwaitingTerm(v), Look(true), t, Retaking);
    Two(events, Signal(true), Look(true));
  }

  /** The holder survives SIGTERM. */
  lemma KillFrees(s: State, q: Pid, v: Pid, events: seq<Event>, t: State)
    requires HungHolder(s, v) && q != v && Alone(s, q, events, At(s, q, Terminating(v))) && t == Exited(s, v)
    ensures Alone(s, q, events + [Signal(false), Timeout, Verify(true), Signal(true), Look(true)], At(t, q, Retaking))
  {
    assert t.lock == None;
    hide *;
    SignalMoves(s, q, v);
    FindsFree(t, q, AwaitingKill);
    Then(s, q, events, s, Terminating(v), Signal(false), s, AwaitingTerm(v));
    var a := events + [Signal(false)];
    Then(s, q, a, s, AwaitingTerm(v), Timeout, s, Reverifying(v));
    var b := a + [Timeout];
    Then(s, q, b, s, Reverifying(v), Verify(true), s, Killing(v));
    var c := b + [Verify(true)];
    Then(s, q, c, s, Killing(v), Signal(true), t, AwaitingKill);
    var e := c + [Signal(true)];
    Then(s, q, e, t, AwaitingKill, Look(true), t, Retaking);
    KillEvents(events, a, b, c, e);
  }

  lemma Two(events: seq<Event>, x: Event, y: Event)
    ensures events + [x] + [y] == events + [x, y]
  {
  }

  lemma KillEvents(events: seq<Event>, a: seq<Event>, b: seq<Event>, c: seq<Event>, e: seq<Event>)
    requires a == events + [Signal(false)] && b == a + [Timeout] && c == b + [Verify(true)] && e == c + [Signal(true)]
    ensures e + [Look(true)] == events + [Signal(false), Timeout, Verify(true), Signal(true), Look(true)]
  {
  }

  lemma DisplacesAlone(s: State, q: Pid, v: Pid, dies: bool)
    requires HungHolder(s, v) && q !in s.procs
    ensures Alone(s, q, Displacing(dies), At(Exited(s, v), q, Retaking))
  {
    AimsAlone(s, q, v);
    var a := [Launch, Busy, Ping(Wedged), Timeout, Look(false), ReadRecord, Verify(true), Ping(Wedged), ReadRecord];
    assert q != v;
    DisplacingInParts(a);
    hide *;
    if dies {
      TermFrees(s, q, v, a, Exited(s, v));
    } else {
      KillFrees(s, q, v, a, Exited(s, v));
    }
  }

  lemma DisplacingInParts(a: seq<Event>)
    requires a == [Launch, Busy, Ping(Wedged), Timeout, Look(false), ReadRecord, Verify(true), Ping(Wedged), ReadRecord]
    ensures Displacing(true) == a + [Signal(true), Look(true)]
    ensures Displacing(false) == a + [Signal(false), Timeout, Verify(true), Signal(true), Look(true)]
  {
  }

  /**
   * In every state whose holder listens but does not answer, a new start, by exactly these steps of its own, ends with
   * the holder dead and itself holding the lock, recorded, and serving; it kills a holder that SIGTERM does not end.
   */
  lemma HungHolderIsReplaced(s: State, q: Pid, v: Pid, dies: bool)
    requires HungHolder(s, v) && q !in s.procs && q !in s.stoppers
    ensures Alone(s, q, Displacing(dies) + Settling(true, true, Wedged),
                  s.(lock := Some(q), recorded := Some(q), socket := Some(q),
                     procs := s.procs[v := Gone][q := Serving]))
  {
    DisplacesAlone(s, q, v, dies);
    var t := Exited(s, v);
    assert ProbeFits(At(t, q, Clearing), Wedged);
    assert Owned(t, q, true, true)
           == s.(lock := Some(q), recorded := Some(q), socket := Some(q), procs := s.procs[v := Gone][q := Serving]);
    assert t.lock == None && t.stoppers == s.stoppers;
    hide Alone, At, ProbeFits, Owned, Settling, Displacing, Exited;
    SettlesAlone(s, q, Displacing(dies), t, Retaking, true, true, Wedged);
  }

  /** An owner that hangs is such a holder; answering again, it is as before. */
  lemma OwnerHangs(s: State, v: Pid)
    requires Serves(s, v) && v !in s.hung && v !in s.stoppers
    ensures s.Answers() && Alone(s, v, [Hang], s.(hung := s.hung + {v})) && HungHolder(s.(hung := s.hung + {v}), v)
    ensures !s.(hung := s.hung + {v}).Answers() && Alone(s.(hung := s.hung + {v}), v, [Resume], s)
  {
    assert s.procs[v := s.procs[v]] == s.procs;
    assert s.hung + {v} - {v} == s.hung;
    AloneOne(s, v, Hang);
    AloneOne(s.(hung := s.hung + {v}), v, Resume);
  }

  /** A process can die at any time; that frees the lock if it held it, and changes nothing else. */
  lemma AnyoneCanDie(s: State, p: Pid)
    requires s.Live(p)
    ensures Alone(s, p, [Die], s.(lock := if s.lock == Some(p) then None else s.lock, procs := s.procs[p := Gone]))
  {
    AloneOne(s, p, Die);
  }

  /** An owner that crashes leaves its socket and its record behind, and the next start takes over. */
  lemma CrashedOwnerIsReplaced(s: State, v: Pid, q: Pid) returns (t: State)
    requires Serves(s, v) && q !in s.procs
    ensures Alone(s, v, [Die], t) && t == s.(lock := None, procs := s.procs[v := Gone])
    ensures Alone(t, q, [Launch] + Settling(true, true, Wedged), Owned(t, q, true, true))
  {
    t := s.(lock := None, procs := s.procs[v := Gone]);
    AnyoneCanDie(s, v);
    assert ProbeFits(t, Wedged);
    StartServes(t, q, true, true, Wedged);
  }

  // ---------------------------------------------------------------------------
  // Nobody is signalled out of order
  // ---------------------------------------------------------------------------

  /** The stages of a displacement, each entered by one step that looks at the state. */
  datatype Stage = Named | Verified | Silent | Confirmed | Warned | VerifiedAgain

  predicate Reached(stage: Stage, phase: Phase, v: Pid)
  {
    match stage
    case VerifiedAgain => phase == Killing(v)
    case Warned => phase in {AwaitingTerm(v), Reverifying(v), Killing(v)}
    case Confirmed => phase in {Terminating(v), AwaitingTerm(v), Reverifying(v), Killing(v)}
    case Silent => phase in {Rereading(v), Terminating(v), AwaitingTerm(v), Reverifying(v), Killing(v)}
    case Verified => phase in {Reprobing(v), Rereading(v), Terminating(v), AwaitingTerm(v), Reverifying(v), Killing(v)}
    case Named => Target(phase) == Some(v)
  }

  /** This step of `q` takes it to the stage, in a state that justifies it. */
  ghost predicate Enters(stage: Stage, s: State, step: Step, q: Pid, v: Pid)
  {
    step.pid == q && q in s.procs &&
    match stage
    case Named => step.event == ReadRecord && s.procs[q] == Reading && s.recorded == Some(v) && v != q
    case Verified => step.event == Verify(true) && s.procs[q] == Verifying(v) && s.Live(v) && v !in s.stoppers
    case Silent => step.event == Ping(Wedged) && s.procs[q] == Reprobing(v) && s.socket.Some? && !s.Answers()
    case Confirmed => step.event == ReadRecord && s.procs[q] == Rereading(v) && s.recorded == Some(v)
    case Warned => step.event.Signal? && s.procs[q] == Terminating(v)
    case VerifiedAgain => step.event == Verify(true) && s.procs[q] == Reverifying(v) && s.Live(v) && v !in s.stoppers
  }

  /** The early stages only name, verify and probe. */
  lemma EntersEarly(stage: Stage, s: State, step: Step, q: Pid, v: Pid)
    requires Enabled(s, step) && q in Next(s, step).procs && Reached(stage, Next(s, step).procs[q], v)
    requires stage == Named || stage == Verified || stage == Silent
    ensures q in s.procs && (Reached(stage, s.procs[q], v) || Enters(stage, s, step, q, v))
  {
    match stage
    case Named =>
    case Verified =>
    case Silent =>
  }

  lemma EntersLate(stage: Stage, s: State, step: Step, q: Pid, v: Pid)
    requires Enabled(s, step) && q in Next(s, step).procs && Reached(stage, Next(s, step).procs[q], v)
    requires stage == Confirmed || stage == Warned || stage == VerifiedAgain
    ensures q in s.procs && (Reached(stage, s.procs[q], v) || Enters(stage, s, step, q, v))
  {
    hide ProbeFits;
    match stage
    case Confirmed =>
    case Warned =>
    case VerifiedAgain =>
  }

  lemma EntersOrStays(stage: Stage, s: State, step: Step, q: Pid, v: Pid)
    requires Enabled(s, step) && q in Next(s, step).procs && Reached(stage, Next(s, step).procs[q], v)
    ensures q in s.procs && (Reached(stage, s.procs[q], v) || Enters(stage, s, step, q, v))
  {
    hide *;
    if stage == Named || stage == Verified || stage == Silent {
      EntersEarly(stage, s, step, q, v);
    } else {
      EntersLate(stage, s, step, q, v);
    }
  }

  /** In step `i` of the run. */
  ghost predicate EntersAt(init: State, run: seq<Step>, i: nat, stage: Stage, q: Pid, v: Pid)
  {
    i < |run| && After(init, run[..i]).Some? && Enters(stage, After(init, run[..i]).value, run[i], q, v)
  }

  lemma {:induction false} StageWasEntered(init: State, run: seq<Step>, stage: Stage, q: Pid, v: Pid) returns (i: nat)
    requires Init(init) && After(init, run).Some?
    requires q in After(init, run).value.procs && Reached(stage, After(init, run).value.procs[q], v)
    ensures EntersAt(init, run, i, stage, q, v)
  {
    hide Enabled, Next, Reached, Enters;
    if run == [] {
      NotStarted(init, stage, q, v);
    } else {
      var before := run[..|run| - 1];
      EntersOrStays(stage, After(init, before).value, run[|run| - 1], q, v);
      if Reached(stage, After(init, before).value.procs[q], v) {
        i := StageWasEntered(init, before, stage, q, v);
        assert before[..i] == run[..i];
      } else {
        i := |run| - 1;
      }
    }
  }

  lemma NotStarted(init: State, stage: Stage, q: Pid, v: Pid)
    requires Init(init) && q in init.procs
    ensures !Reached(stage, init.procs[q], v)
  {
  }

  lemma EarlierEntry(init: State, run: seq<Step>, j: nat, i: nat, stage: Stage, q: Pid, v: Pid)
    requires j <= |run| && EntersAt(init, run[..j], i, stage, q, v)
    ensures i < j && EntersAt(init, run, i, stage, q, v)
  {
    hide Enters, After;
    assert run[..j][..i] == run[..i];
  }

  /** The stage before, for a process that enters a stage in step `j`. */
  lemma StageBefore(init: State, run: seq<Step>, j: nat, next: Stage, stage: Stage, q: Pid, v: Pid) returns (i: nat)
    requires Init(init) && EntersAt(init, run, j, next, q, v)
    requires (stage, next) in {(Named, Verified), (Verified, Silent), (Silent, Confirmed), (Confirmed, Warned),
                               (Warned, VerifiedAgain)}
    ensures i < j && EntersAt(init, run, i, stage, q, v)
  {
    hide After;
    i := StageWasEntered(init, run[..j], stage, q, v);
    EarlierEntry(init, run, j, i, stage, q, v);
  }

  /**
   * A process about to send SIGTERM has, in this order, read the pid from the lock file, found it to be a running
   * daemon and no `daemon stop` command, got no answer on the socket, and read the same pid again.
   */
  lemma TermIsInOrder(init: State, run: seq<Step>, q: Pid, v: Pid) returns (a: nat, b: nat, c: nat, e: nat)
    requires Init(init) && After(init, run).Some? && After(init, run).value.Is(q, Terminating(v))
    ensures a < b < c < e
    ensures EntersAt(init, run, a, Named, q, v) && EntersAt(init, run, b, Verified, q, v)
    ensures EntersAt(init, run, c, Silent, q, v) && EntersAt(init, run, e, Confirmed, q, v)
  {
    hide After, EntersAt;
    e := StageWasEntered(init, run, Confirmed, q, v);
    c := StageBefore(init, run, e, Confirmed, Silent, q, v);
    b := StageBefore(init, run, c, Silent, Verified, q, v);
    a := StageBefore(init, run, b, Verified, Named, q, v);
  }

  /** Before SIGKILL it has then sent SIGTERM, and found the process to be running still. */
  lemma KillIsInOrder(init: State, run: seq<Step>, q: Pid, v: Pid) returns (e: nat, f: nat, g: nat)
    requires Init(init) && After(init, run).Some? && After(init, run).value.Is(q, Killing(v))
    ensures e < f < g
    ensures EntersAt(init, run, e, Confirmed, q, v) && EntersAt(init, run, f, Warned, q, v)
    ensures EntersAt(init, run, g, VerifiedAgain, q, v)
  {
    hide After, EntersAt;
    g := StageWasEntered(init, run, VerifiedAgain, q, v);
    f := StageBefore(init, run, g, VerifiedAgain, Warned, q, v);
    e := StageBefore(init, run, f, Warned, Confirmed, q, v);
  }

  // ---------------------------------------------------------------------------
  // Nobody is signalled in vain
  // ---------------------------------------------------------------------------

  /** What `q` learns that its target is not the hung holder it was: an answer, another pid, or that it is gone. */
  ghost predicate TargetLost(s: State, q: Pid, v: Pid, e: Event)
  {
    || (s.Is(q, Reprobing(v)) && e.Ping? && ProbeFits(s, e.probe) && !e.probe.Wedged?)
    || (s.Is(q, Rereading(v)) && e == ReadRecord && s.recorded != Some(v))
    || (s.Is(q, Reverifying(v)) && e == Verify(false))
  }

  /** Then it signals nobody: it looks at the lock once more, goes on if that is free, and else gives up. */
  lemma LostTargetLooksOnce(s: State, q: Pid, v: Pid, e: Event)
    requires Inv(s) && TargetLost(s, q, v, e)
    ensures Alone(s, q, [e, Look(false)], At(s, q, Gone))
    ensures s.lock == None ==> Alone(s, q, [e, Look(true)], At(s, q, Retaking))
  {
    var x := s.procs[q];
    OwnerHolds(s, q);
    assert s.procs[q := x] == s.procs;
    assert At(s, q, x) == s && By(q, []) == [];
    assert Alone(s, q, [], At(s, q, x));
    LostMoves(s, q, v, e);
    hide *;
    Then(s, q, [], s, x, e, s, LastLook);
    Then(s, q, [] + [e], s, LastLook, Look(false), s, Gone);
    if s.lock == None {
      FindsFree(s, q, LastLook);
      Then(s, q, [] + [e], s, LastLook, Look(true), s, Retaking);
    }
    Two([], e, Look(false));
    Two([], e, Look(true));
    Plus(e);
  }

  lemma Plus(e: Event)
    ensures forall x: Event :: [] + [e, x] == [e, x]
  {
  }

  lemma LostMoves(s: State, q: Pid, v: Pid, e: Event)
    requires TargetLost(s, q, v, e) && s.lock != Some(q)
    ensures Moves(s, q, s.procs[q], e, s, LastLook) && Moves(s, q, LastLook, Look(false), s, Gone)
  {
    assert s.procs[q := s.procs[q]] == s.procs;
    RepeatedMove(s, q, s.procs[q], LastLook);
    RepeatedMove(s, q, LastLook, Gone);
    assert At(s, q, s.procs[q]) == s;
  }

  /**
   * Without a recorded pid of another process, or when that is no running daemon of this user, a displacer gives up;
   * so it does when the lock is still taken some time after SIGKILL.
   */
  lemma NoTargetGivesUp(s: State, q: Pid, v: Pid)
    requires Inv(s)
    ensures s.Is(q, Reading) && (s.recorded == None || s.recorded == Some(q))
            ==> Alone(s, q, [ReadRecord], At(s, q, Gone))
    ensures s.Is(q, Verifying(v)) ==> Alone(s, q, [Verify(false)], At(s, q, Gone))
    ensures s.Is(q, AwaitingKill) ==> Alone(s, q, [Timeout], At(s, q, Gone))
  {
    if s.Is(q, AwaitingKill) {
      OwnerHolds(s, q);
      AloneOne(s, q, Timeout);
    }
    if s.Is(q, Reading) && (s.recorded == None || s.recorded == Some(q)) {
      OwnerHolds(s, q);
      AloneOne(s, q, ReadRecord);
    }
    if s.Is(q, Verifying(v)) {
      OwnerHolds(s, q);
      AloneOne(s, q, Verify(false));
    }
  }

  // ---------------------------------------------------------------------------
  // Waiting
  // ---------------------------------------------------------------------------

  /** Waiting for the previous owner changes nothing. */
  lemma RetryingChangesNothing(s: State, q: Pid)
    requires s.Is(q, Trying) && s.socket.Some? && !s.Answers()
    ensures Alone(s, q, [Busy] + [Ping(Wedged)] + [Retry], s)
  {
    assert s.procs[q := Trying] == s.procs;
    assert At(s, q, Trying) == s && By(q, []) == [];
    assert Alone(s, q, [], At(s, q, Trying));
    assert [] + [Busy] == [Busy];
    RetryMoves(s, q);
    hide *;
    Then(s, q, [], s, Trying, Busy, s, Probing);
    Then(s, q, [Busy], s, Probing, Ping(Wedged), s, Waiting(true));
    Then(s, q, [Busy] + [Ping(Wedged)], s, Waiting(true), Retry, s, Trying);
  }

  /** Nor does waiting for a signalled one, or for an old daemon to exit. */
  lemma WaitingChangesNothing(s: State, q: Pid)
    requires q in s.procs
    ensures s.procs[q].AwaitingTerm? || s.procs[q].AwaitingKill? ==> Alone(s, q, [Look(false)], s)
    ensures s.Is(q, Evicting) && s.Answers() ==> Alone(s, q, [Ping(Answered(true))], s)
  {
    var x := s.procs[q];
    assert s.procs[q := x] == s.procs;
    if x.AwaitingTerm? || x.AwaitingKill? {
      AloneOne(s, q, Look(false));
    } else if s.Is(q, Evicting) && s.Answers() {
      AloneOne(s, q, Ping(Answered(true)));
    }
  }

  lemma RetryMoves(s: State, q: Pid)
    requires s.Is(q, Trying) && s.socket.Some? && !s.Answers()
    ensures Moves(s, q, Trying, Busy, s, Probing) && Moves(s, q, Probing, Ping(Wedged), s, Waiting(true))
    ensures Moves(s, q, Waiting(true), Retry, s, Trying)
  {
    BusyMoves(s, q, true);
    RepeatedMove(s, q, Probing, Waiting(true));
  }
}
