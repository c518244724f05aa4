/** One daemon per socket: ownership by lock file, and displacement of a holder that no longer answers. */
module Ownership {
  import opened Wrappers

  // A process id; ids are not reused within a run.
  type Pid = nat

  datatype Probe = Answered(sameVersion: bool) | Wedged | Dead

  /** Where a process stands. `Legacy` is a daemon from before the lock; `Gone` is a process that exited. */
  datatype Phase =
    | Gone
    | Legacy
      // acquiring the lock
    | Trying
    | Probing
    | Waiting(wedged: bool)
      // displacing a holder
    | Looking
    | Reading
    | Verifying(victim: Pid)
    | Reprobing(victim: Pid)
    | Rereading(victim: Pid)
    | Terminating(victim: Pid)
    | AwaitingTerm(victim: Pid)
    | Reverifying(victim: Pid)
    | Killing(victim: Pid)
    | AwaitingKill
    | LastLook
    | Retaking
      // with the lock held
    | Truncating
    | Writing
    | Clearing
    | Evicting
    | Unlinking
    | Binding
    | Serving

  datatype Event =
    | Launch
    | LaunchStop
    | Take
    | Busy
    | Ping(probe: Probe)
    | Retry
    | Timeout
    | Look(free: bool)
    | ReadRecord
    | Verify(ok: bool)
    | Signal(dies: bool)
    | Truncate(ok: bool)
    | Write(ok: bool)
    | Unlink(ok: bool)
    | Bind
    | Hang
    | Resume
    | Die

  datatype Step = Step(pid: Pid, event: Event)

  /**
   * The lock, the pid its file records, the process whose listener the socket path names (its entry outlives it),
   * all processes so far, those not answering, and those that are `daemon stop` commands.
   */
  datatype State = State(lock: Option<Pid>, recorded: Option<Pid>, socket: Option<Pid>, procs: map<Pid, Phase>,
                         hung: set<Pid>, stoppers: set<Pid>)
  {
    predicate Is(p: Pid, phase: Phase)
    {
      p in procs && procs[p] == phase
    }

    predicate Live(p: Pid)
    {
      p in procs && procs[p] != Gone
    }

    /** Some process answers on the socket path. */
    predicate Answers()
    {
      socket.Some? && (Is(socket.value, Serving) || Is(socket.value, Legacy)) && socket.value !in hung
    }
  }

  /** No lock-aware process yet; the files may be left over from dead ones, and an old daemon may be listening. */
  ghost predicate Init(s: State)
  {
    && s.lock == None && s.stoppers == {}
    && (forall p :: p in s.procs ==> s.procs[p] == Gone || s.procs[p] == Legacy)
    && (s.socket.Some? ==> s.socket.value in s.procs)
    && (s.recorded.Some? ==> s.Is(s.recorded.value, Gone))
  }

  predicate ProbeFits(s: State, probe: Probe)
  {
    match probe
    case Answered(_) => s.Answers()
    case Wedged => !s.Answers() && s.socket.Some?
    case Dead => !s.Answers()
  }

  /**
   * Where `p` goes on `e`; None if it cannot. A lock attempt or a look at the lock may find it taken at any time:
   * other processes' looks hold it for an instant.
   */
  function PhaseAfter(s: State, p: Pid, e: Event): Option<Phase>
    requires p in s.procs
  {
    match (s.procs[p], e)
    case (Trying, Take) => if s.lock == None then Some(Truncating) else None
    case (Trying, Busy) => Some(Probing)
    case (Probing, Ping(probe)) =>
      if !ProbeFits(s, probe) then None
      else if probe == Answered(true) then Some(Gone)
      else Some(Waiting(probe.Wedged?))
    case (Waiting(_), Retry) => Some(Trying)
    case (Waiting(wedged), Timeout) => Some(if wedged then Looking else Gone)

    case (Looking, Look(free)) => if !free then Some(Reading) else if s.lock == None then Some(Retaking) else None
    case (Reading, ReadRecord) =>
      if s.recorded.Some? && s.recorded.value != p then Some(Verifying(s.recorded.value)) else Some(Gone)
    case (Verifying(v), Verify(ok)) =>
      if !ok then Some(Gone) else if s.Live(v) && v !in s.stoppers then Some(Reprobing(v)) else None
    case (Reprobing(v), Ping(probe)) =>
      if !ProbeFits(s, probe) then None else if probe.Wedged? then Some(Rereading(v)) else Some(LastLook)
    case (Rereading(v), ReadRecord) => Some(if s.recorded == Some(v) then Terminating(v) else LastLook)
    case (Terminating(v), Signal(_)) => Some(AwaitingTerm(v))
    case (AwaitingTerm(v), Look(free)) =>
      if !free then Some(AwaitingTerm(v)) else if s.lock == None then Some(Retaking) else None
    case (AwaitingTerm(v), Timeout) => Some(Reverifying(v))
    case (Reverifying(v), Verify(ok)) =>
      if !ok then Some(LastLook) else if s.Live(v) && v !in s.stoppers then Some(Killing(v)) else None
    case (Killing(v), Signal(dies)) => if dies then Some(AwaitingKill) else None
    case (AwaitingKill, Look(free)) =>
      if !free then Some(AwaitingKill) else if s.lock == None then Some(Retaking) else None
    case (AwaitingKill, Timeout) => Some(Gone)
    case (LastLook, Look(free)) => if !free then Some(Gone) else if s.lock == None then Some(Retaking) else None
    case (Retaking, Take) => if s.lock == None && p !in s.stoppers then Some(Truncating) else None
    case (Retaking, Busy) => Some(Gone)

    case (Truncating, Truncate(ok)) => Some(if ok then Writing else Clearing)
    case (Writing, Write(_)) => Some(Clearing)
    case (Clearing, Ping(probe)) =>
      if !ProbeFits(s, probe) then None else if probe.Answered? then Some(Evicting) else Some(Unlinking)
    case (Evicting, Ping(probe)) =>
      if !ProbeFits(s, probe) then None else if probe.Answered? then Some(Evicting) else Some(Unlinking)
    case (Evicting, Timeout) => Some(Gone)
    case (Unlinking, Unlink(_)) => Some(Binding)
    case (Binding, Bind) => Some(if s.socket == None then Serving else Gone)

    case (phase, Die) => if phase == Gone then None else Some(Gone)
    case (phase, Hang) => if phase == Gone then None else Some(phase)
    case (phase, Resume) => if phase == Gone then None else Some(phase)
    case _ => None
  }

  predicate Enabled(s: State, step: Step)
  {
    if step.event.Launch? || step.event.LaunchStop? then step.pid !in s.procs
    else step.pid in s.procs && PhaseAfter(s, step.pid, step.event).Some?
  }

  /** A dead process holds no lock; its socket entry and its record stay behind. */
  function Exited(s: State, p: Pid): State
  {
    s.(procs := s.procs[p := Gone], lock := if s.lock == Some(p) then None else s.lock)
  }

  function Moved(s: State, p: Pid, phase: Phase): State
  {
    if phase == Gone then Exited(s, p) else s.(procs := s.procs[p := phase])
  }

  function Effect(s: State, p: Pid, e: Event): State
    requires p in s.procs
  {
    match e
    case Take => s.(lock := Some(p))
    case Signal(dies) =>
      if dies && (s.procs[p].Terminating? || s.procs[p].Killing?) then Exited(s, s.procs[p].victim) else s
    case Truncate(ok) => if ok then s.(recorded := None) else s
    case Write(ok) => if ok then s.(recorded := Some(p)) else s
    case Unlink(ok) => if ok then s.(socket := None) else s
    case Bind => if s.socket == None then s.(socket := Some(p)) else s
    case Hang => s.(hung := s.hung + {p})
    case Resume => s.(hung := s.hung - {p})
    case _ => s
  }

  function Next(s: State, step: Step): State
    requires Enabled(s, step)
  {
    var p := step.pid;
    match step.event
    case Launch => s.(procs := s.procs[p := Trying])
    case LaunchStop => s.(procs := s.procs[p := Looking], stoppers := s.stoppers + {p})
    case _ => Moved(Effect(s, p, step.event), p, PhaseAfter(s, p, step.event).value)
  }

  /** The state after `run`; None if some step is not enabled. */
  ghost function After(init: State, run: seq<Step>): Option<State>
  {
    if run == [] then Some(init)
    else
      var s := After(init, run[..|run| - 1]);
      if s.Some? && Enabled(s.value, run[|run| - 1]) then Some(Next(s.value, run[|run| - 1])) else None
  }

  // ---------------------------------------------------------------------------
  // The invariant
  // ---------------------------------------------------------------------------

  predicate Owning(phase: Phase)
  {
    phase in {Truncating, Writing, Clearing, Evicting, Unlinking, Binding, Serving}
  }

  /** The process a displacer is after. */
  function Target(phase: Phase): Option<Pid>
  {
    match phase
    case Verifying(v) => Some(v)
    case Reprobing(v) => Some(v)
    case Rereading(v) => Some(v)
    case Terminating(v) => Some(v)
    case AwaitingTerm(v) => Some(v)
    case Reverifying(v) => Some(v)
    case Killing(v) => Some(v)
    case _ => None
  }

  /** Past writing its pid into the lock file. */
  predicate Settled(phase: Phase)
  {
    Owning(phase) && phase != Truncating && phase != Writing
  }

  /** Dead, or the holder of the lock, recorded as such. */
  predicate DeadOrHolder(s: State, v: Pid)
  {
    v in s.procs && (s.procs[v] == Gone || (s.lock == Some(v) && s.recorded == Some(v) && Settled(s.procs[v])))
  }

  predicate GoodTarget(s: State, p: Pid, target: Option<Pid>)
  {
    target.Some? ==> target.value != p && DeadOrHolder(s, target.value)
  }

  ghost predicate LockIsOwned(s: State)
  {
    && (s.lock.Some? ==> s.lock.value in s.procs)
    && forall p :: p in s.procs ==> (Owning(s.procs[p]) <==> s.lock == Some(p))
  }

  ghost predicate SocketIsOwned(s: State)
  {
    && (forall p :: p in s.procs && s.procs[p] == Serving ==> s.socket == Some(p))
    && (s.socket.Some? ==> s.socket.value in s.procs && (s.procs[s.socket.value] in {Gone, Legacy, Serving}))
  }

  ghost predicate TargetsAreOwned(s: State)
  {
    && (s.recorded.Some? ==> DeadOrHolder(s, s.recorded.value))
    && forall p :: p in s.procs ==> GoodTarget(s, p, Target(s.procs[p]))
  }

  ghost predicate Inv(s: State)
  {
    LockIsOwned(s) && SocketIsOwned(s) && TargetsAreOwned(s)
  }

  lemma InitHasInv(s: State)
    requires Init(s)
    ensures Inv(s)
  {
  }

  lemma DeathKeepsInv(s: State, v: Pid)
    requires Inv(s) && v in s.procs
    ensures Inv(Exited(s, v))
  {
  }

  /** A move that leaves lock and files alone. */
  lemma MoveKeepsInv(s: State, p: Pid, phase: Phase)
    requires Inv(s) && p in s.procs && s.procs[p] != Gone && phase != Gone
    requires Owning(s.procs[p]) == Owning(phase)
    requires (s.procs[p] == Serving) == (phase == Serving) && (s.procs[p] == Legacy) == (phase == Legacy)
    requires GoodTarget(s, p, Target(phase)) && (Settled(s.procs[p]) ==> Settled(phase))
    ensures Inv(Moved(s, p, phase))
  {
    hide LockIsOwned, SocketIsOwned, TargetsAreOwned;
    MoveKeepsLock(s, p, phase);
    MoveKeepsSocket(s, p, phase);
    MoveKeepsTargets(s, p, phase);
  }

  lemma MoveKeepsLock(s: State, p: Pid, phase: Phase)
    requires LockIsOwned(s) && p in s.procs && phase != Gone && Owning(s.procs[p]) == Owning(phase)
    ensures LockIsOwned(Moved(s, p, phase))
  {
    hide Owning;
  }

  lemma MoveKeepsSocket(s: State, p: Pid, phase: Phase)
    requires SocketIsOwned(s) && p in s.procs && s.procs[p] != Gone && phase != Gone
    requires (s.procs[p] == Serving) == (phase == Serving) && (s.procs[p] == Legacy) == (phase == Legacy)
    ensures SocketIsOwned(Moved(s, p, phase))
  {
  }

  lemma MoveKeepsTargets(s: State, p: Pid, phase: Phase)
    requires TargetsAreOwned(s) && p in s.procs && s.procs[p] != Gone && phase != Gone
    requires GoodTarget(s, p, Target(phase)) && (Settled(s.procs[p]) ==> Settled(phase))
    ensures TargetsAreOwned(Moved(s, p, phase))
  {
    hide Target, Settled;
  }

  lemma TakeKeepsInv(s: State, p: Pid)
    requires Inv(s) && p in s.procs && s.lock == None && (s.procs[p] == Trying || s.procs[p] == Retaking)
    ensures Inv(Moved(s.(lock := Some(p)), p, Truncating))
  {
  }

  /** Only the holder writes the record, and nobody is after it before it has. */
  lemma RecordKeepsInv(s: State, p: Pid, recorded: Option<Pid>, phase: Phase)
    requires Inv(s) && s.lock == Some(p) && !Settled(s.procs[p]) && (phase == Writing || phase == Clearing)
    requires recorded == s.recorded || recorded == None || (recorded == Some(p) && phase == Clearing)
    ensures Inv(Moved(s.(recorded := recorded), p, phase))
  {
  }

  lemma UnlinkKeepsInv(s: State, p: Pid)
    requires Inv(s) && s.lock == Some(p) && s.procs[p] == Unlinking
    ensures Inv(s.(socket := None))
  {
  }

  lemma BindKeepsInv(s: State, p: Pid)
    requires Inv(s) && s.lock == Some(p) && s.procs[p] == Binding
    ensures Inv(Moved(s.(socket := Some(p)), p, Serving))
  {
  }

  lemma LaunchKeepsInv(s: State, p: Pid, phase: Phase, stoppers: set<Pid>)
    requires Inv(s) && p !in s.procs && (phase == Trying || phase == Looking)
    ensures Inv(s.(procs := s.procs[p := phase], stoppers := stoppers))
  {
  }

  lemma SignalKeepsInv(s: State, p: Pid, dies: bool)
    requires Inv(s) && p in s.procs && PhaseAfter(s, p, Signal(dies)).Some?
    ensures Inv(Next(s, Step(p, Signal(dies))))
  {
    hide Inv;
    var v := s.procs[p].victim;
    var t := if dies then Exited(s, v) else s;
    TargetIsHolder(s, p, v);
    if dies {
      DeathKeepsInv(s, v);
      TargetStays(s, p, v);
    }
    MoveKeepsInv(t, p, PhaseAfter(s, p, Signal(dies)).value);
  }

  lemma TargetIsHolder(s: State, p: Pid, v: Pid)
    requires Inv(s) && p in s.procs && Target(s.procs[p]) == Some(v)
    ensures v != p && DeadOrHolder(s, v)
  {
  }

  lemma TargetStays(s: State, p: Pid, v: Pid)
    requires p in s.procs && v in s.procs && v != p
    ensures Exited(s, v).procs[p] == s.procs[p] && DeadOrHolder(Exited(s, v), v)
  {
  }

  lemma StepKeepsInv(s: State, step: Step)
    requires Inv(s) && Enabled(s, step)
    ensures Inv(Next(s, step))
  {
    hide Inv;
    var p := step.pid;
    match step.event
    case Launch => LaunchKeepsInv(s, p, Trying, s.stoppers);
    case LaunchStop => LaunchKeepsInv(s, p, Looking, s.stoppers + {p});
    case Signal(dies) => SignalKeepsInv(s, p, dies);
    case Take => TakeKeepsInv(s, p);
    case _ => OtherKeepsInv(s, step);
  }

  lemma HungKeepsInv(s: State, hung: set<Pid>)
    requires Inv(s)
    ensures Inv(s.(hung := hung))
  {
  }

  lemma OwnerHolds(s: State, p: Pid)
    requires Inv(s) && p in s.procs
    ensures Owning(s.procs[p]) <==> s.lock == Some(p)
  {
  }

  lemma InvTargets(s: State)
    requires Inv(s)
    ensures TargetsAreOwned(s)
  {
  }

  predicate Plain(e: Event)
  {
    e.Busy? || e.Ping? || e.Retry? || e.Timeout? || e.Look? || e.ReadRecord? || e.Verify?
  }

  /** Moves that only look around keep the role of the process. */
  lemma PlainKeepsRole(s: State, p: Pid, e: Event)
    requires p in s.procs && Plain(e) && PhaseAfter(s, p, e).Some? && PhaseAfter(s, p, e).value != Gone
    ensures Owning(s.procs[p]) == Owning(PhaseAfter(s, p, e).value)
    ensures (s.procs[p] == Serving) == (PhaseAfter(s, p, e).value == Serving)
    ensures (s.procs[p] == Legacy) == (PhaseAfter(s, p, e).value == Legacy)
    ensures s.procs[p] != Gone && (Settled(s.procs[p]) ==> Settled(PhaseAfter(s, p, e).value))
  {
    hide ProbeFits;
  }

  /** What they remember is a dead process or the holder. */
  lemma PlainKeepsTarget(s: State, p: Pid, e: Event)
    requires TargetsAreOwned(s) && p in s.procs && Plain(e) && PhaseAfter(s, p, e).Some?
    ensures GoodTarget(s, p, Target(PhaseAfter(s, p, e).value))
  {
    hide ProbeFits, DeadOrHolder;
    assert GoodTarget(s, p, Target(s.procs[p]));
  }

  lemma PlainKeepsInv(s: State, p: Pid, e: Event)
    requires Inv(s) && p in s.procs && Plain(e) && PhaseAfter(s, p, e).Some?
    ensures Inv(Moved(s, p, PhaseAfter(s, p, e).value))
  {
    hide Inv, PhaseAfter, Plain;
    if PhaseAfter(s, p, e).value == Gone {
      DeathKeepsInv(s, p);
    } else {
      PlainKeepsRole(s, p, e);
      assert TargetsAreOwned(s) by { InvTargets(s); }
      PlainKeepsTarget(s, p, e);
      MoveKeepsInv(s, p, PhaseAfter(s, p, e).value);
    }
  }

  lemma RecordStepKeepsInv(s: State, p: Pid, e: Event)
    requires Inv(s) && p in s.procs && (e.Truncate? || e.Write?) && PhaseAfter(s, p, e).Some?
    ensures Inv(Next(s, Step(p, e)))
  {
    hide Inv;
    OwnerHolds(s, p);
    RecordKeepsInv(s, p, Effect(s, p, e).recorded, PhaseAfter(s, p, e).value);
  }

  lemma SocketStepKeepsInv(s: State, p: Pid, e: Event)
    requires Inv(s) && p in s.procs && (e.Unlink? || e.Bind?) && PhaseAfter(s, p, e).Some?
    ensures Inv(Next(s, Step(p, e)))
  {
    hide Inv;
    OwnerHolds(s, p);
    if e.Unlink? {
      UnlinkKeepsInv(s, p);
      MoveKeepsInv(Effect(s, p, e), p, Binding);
    } else if s.socket == None {
      BindKeepsInv(s, p);
    } else {
      DeathKeepsInv(s, p);
    }
  }

  lemma OtherKeepsInv(s: State, step: Step)
    requires Inv(s) && Enabled(s, step)
    requires !step.event.Launch? && !step.event.LaunchStop? && !step.event.Signal? && !step.event.Take?
    ensures Inv(Next(s, step))
  {
    hide Inv, PhaseAfter;
    var p := step.pid;
    match step.event
    case Truncate(_) => RecordStepKeepsInv(s, p, step.event);
    case Write(_) => RecordStepKeepsInv(s, p, step.event);
    case Unlink(_) => SocketStepKeepsInv(s, p, step.event);
    case Bind => SocketStepKeepsInv(s, p, step.event);
    case Hang => SignalStateKeepsInv(s, p, step.event);
    case Resume => SignalStateKeepsInv(s, p, step.event);
    case Die => SignalStateKeepsInv(s, p, step.event);
    case _ => PlainKeepsInv(s, p, step.event);
  }

  lemma SignalStateKeepsInv(s: State, p: Pid, e: Event)
    requires Inv(s) && p in s.procs && (e.Hang? || e.Resume? || e.Die?) && PhaseAfter(s, p, e).Some?
    ensures Inv(Next(s, Step(p, e)))
  {
    hide Inv;
    if e.Die? {
      DeathKeepsInv(s, p);
    } else {
      assert s.procs[p := s.procs[p]] == s.procs;
      HungKeepsInv(s, s.hung + {p});
      HungKeepsInv(s, s.hung - {p});
    }
  }

  // ---------------------------------------------------------------------------
  // Exclusivity, over every run
  // ---------------------------------------------------------------------------

  lemma {:induction false} RunKeepsInv(init: State, run: seq<Step>)
    requires Init(init) && After(init, run).Some?
    ensures Inv(After(init, run).value)
  {
    hide Inv, Init, Enabled;
    if run == [] {
      InitHasInv(init);
    } else {
      RunKeepsInv(init, run[..|run| - 1]);
      StepKeepsInv(After(init, run[..|run| - 1]).value, run[|run| - 1]);
    }
  }

  /** At most one process is past the lock, it is alive, and a listening one owns the socket path. */
  lemma OneOwner(init: State, run: seq<Step>, p: Pid)
    requires Init(init) && After(init, run).Some?
    ensures var s := After(init, run).value;
            (s.lock == Some(p) <==> p in s.procs && Owning(s.procs[p]))
            && (s.Is(p, Serving) ==> s.socket == Some(p) && s.lock == Some(p))
  {
    hide PhaseAfter, After;
    RunKeepsInv(init, run);
  }

  /** Whoever unlinks or binds the socket path holds the lock. */
  lemma OnlyTheHolderMovesTheSocket(init: State, run: seq<Step>, step: Step)
    requires Init(init) && After(init, run).Some? && Enabled(After(init, run).value, step)
    requires Next(After(init, run).value, step).socket != After(init, run).value.socket
    ensures After(init, run).value.lock == Some(step.pid)
  {
    hide After, Inv;
    RunKeepsInv(init, run);
    OwnerHolds(After(init, run).value, step.pid);
  }

  lemma ProcessStep(s: State, step: Step, p: Pid)
    requires Enabled(s, step) && p in s.procs
    ensures p in Next(s, step).procs && (s.Is(p, Gone) ==> Next(s, step).Is(p, Gone))
  {
  }

  lemma {:induction false} GoneStaysGone(init: State, run: seq<Step>, i: nat, p: Pid)
    requires i <= |run| && After(init, run).Some? && After(init, run[..i]).Some?
    requires After(init, run[..i]).value.Is(p, Gone)
    ensures After(init, run).value.Is(p, Gone)
    decreases |run|
  {
    hide Enabled, Next;
    if i < |run| {
      assert run[..|run| - 1][..i] == run[..i];
      GoneStaysGone(init, run[..|run| - 1], i, p);
      ProcessStep(After(init, run[..|run| - 1]).value, run[|run| - 1], p);
    } else {
      assert run[..i] == run;
    }
  }

  lemma ServingStep(s: State, step: Step, p: Pid)
    requires Inv(s) && Enabled(s, step) && s.Is(p, Serving)
    ensures Next(s, step).Is(p, Serving) || Next(s, step).Is(p, Gone)
  {
    hide Inv;
  }

  /** A listening daemon keeps lock and socket for as long as it lives, whatever the others do. */
  lemma {:induction false} ServingLastsForLife(init: State, run: seq<Step>, i: nat, p: Pid)
    requires Init(init) && i <= |run| && After(init, run).Some? && After(init, run[..i]).Some?
    requires After(init, run[..i]).value.Is(p, Serving) && After(init, run).value.Live(p)
    ensures After(init, run).value.Is(p, Serving)
    ensures After(init, run).value.socket == Some(p) && After(init, run).value.lock == Some(p)
    decreases |run|
  {
    hide Inv, Init, Enabled, Next;
    if i < |run| {
      var before := run[..|run| - 1];
      assert before[..i] == run[..i];
      if After(init, before).value.Is(p, Gone) {
        assert run[..|before|] == before;
        GoneStaysGone(init, run, |before|, p);
      } else {
        PrefixHasProcess(init, before, i, p);
        ServingLastsForLife(init, before, i, p);
        RunKeepsInv(init, before);
        ServingStep(After(init, before).value, run[|run| - 1], p);
      }
    } else {
      assert run[..i] == run;
    }
    OneOwner(init, run, p);
  }

  lemma {:induction false} PrefixHasProcess(init: State, run: seq<Step>, i: nat, p: Pid)
    requires i <= |run| && After(init, run).Some? && After(init, run[..i]).Some?
    requires p in After(init, run[..i]).value.procs
    ensures p in After(init, run).value.procs
    decreases |run|
  {
    hide Enabled, Next;
    if i < |run| {
      assert run[..|run| - 1][..i] == run[..i];
      PrefixHasProcess(init, run[..|run| - 1], i, p);
      ProcessStep(After(init, run[..|run| - 1]).value, run[|run| - 1], p);
    } else {
      assert run[..i] == run;
    }
  }

  // ---------------------------------------------------------------------------
  // Displacement
  // ---------------------------------------------------------------------------

  /** Past the second probe, on the way to a signal. */
  predicate Armed(phase: Phase, v: Pid)
  {
    phase in {Rereading(v), Terminating(v), AwaitingTerm(v), Reverifying(v), Killing(v)}
  }

  lemma ArmedByProbe(s: State, step: Step, q: Pid, v: Pid)
    requires Enabled(s, step) && q in Next(s, step).procs && Armed(Next(s, step).procs[q], v)
    ensures q in s.procs
    ensures Armed(s.procs[q], v)
            || (step == Step(q, Ping(Wedged)) && s.procs[q] == Reprobing(v) && ProbeFits(s, Wedged))
  {
  }

  /** At step `i` of the run `q`, about to displace `v`, probed the socket and got no answer. */
  ghost predicate SilentProbe(init: State, run: seq<Step>, i: nat, q: Pid, v: Pid)
  {
    && i < |run| && run[i] == Step(q, Ping(Wedged)) && After(init, run[..i]).Some?
    && After(init, run[..i]).value.Is(q, Reprobing(v))
    && ProbeFits(After(init, run[..i]).value, Wedged)
  }

  lemma {:induction false} ArmedHasProbe(init: State, run: seq<Step>, q: Pid, v: Pid)
    requires After(init, run).Some? && Init(init)
    requires q in After(init, run).value.procs && Armed(After(init, run).value.procs[q], v)
    ensures exists i: nat :: SilentProbe(init, run, i, q, v)
  {
    hide Enabled, Next, Armed, ProbeFits;
    if run == [] {
      StartsUnarmed(init, q, v);
    } else {
      var before := run[..|run| - 1];
      ArmedByProbe(After(init, before).value, run[|run| - 1], q, v);
      if Armed(After(init, before).value.procs[q], v) {
        ArmedHasProbe(init, before, q, v);
        var i: nat :| SilentProbe(init, before, i, q, v);
        assert before[..i] == run[..i];
        assert SilentProbe(init, run, i, q, v);
      } else {
        assert SilentProbe(init, run, |run| - 1, q, v);
      }
    }
  }

  lemma StartsUnarmed(init: State, q: Pid, v: Pid)
    requires Init(init) && q in init.procs
    ensures !Armed(init.procs[q], v)
  {
  }

  /**
   * A signalled process that is still alive is the holder of the lock. It held the lock when the signalling process
   * last probed the socket, and then it was not answering or not listening yet.
   */
  lemma SignalledHolderWasSilent(init: State, run: seq<Step>, q: Pid, dies: bool) returns (i: nat)
    requires Init(init) && After(init, run).Some?
    requires q in After(init, run).value.procs && Enabled(After(init, run).value, Step(q, Signal(dies)))
    ensures var s := After(init, run).value; var v := s.procs[q].victim;
            SilentProbe(init, run, i, q, v)
            && (s.Live(v) ==> var t := After(init, run[..i]).value;
                              s.lock == Some(v) && t.lock == Some(v) && (t.Is(v, Serving) ==> v in t.hung))
  {
    hide Inv, Init, After;
    var s := After(init, run).value;
    var v := s.procs[q].victim;
    assert Armed(s.procs[q], v);
    ArmedHasProbe(init, run, q, v);
    i :| SilentProbe(init, run, i, q, v);
    RunKeepsInv(init, run);
    TargetIsHolder(s, q, v);
    if s.Live(v) {
      var t := After(init, run[..i]).value;
      RunKeepsInv(init, run[..i]);
      TargetIsHolder(t, q, v);
      if t.Is(v, Gone) {
        GoneStaysGone(init, run, i, v);
      }
      OneOwner(init, run[..i], v);
    }
  }

  lemma ClearedByProbe(s: State, step: Step, p: Pid)
    requires Enabled(s, step) && Next(s, step).Is(p, Unlinking)
    ensures s.Is(p, Unlinking)
            || (step.pid == p && step.event.Ping? && !s.Answers() && (s.Is(p, Clearing) || s.Is(p, Evicting)))
  {
  }

  /** A process that does not move on from unlinking leaves the socket alone, and so does everyone else. */
  lemma SocketWaits(s: State, step: Step, p: Pid)
    requires Inv(s) && Enabled(s, step) && Next(s, step).Is(p, Unlinking)
    ensures Next(s, step).socket == s.socket
  {
    hide Inv;
    if step.pid in s.procs {
      OwnerHolds(s, step.pid);
    }
    if p in s.procs {
      OwnerHolds(s, p);
    }
  }

  /** At step `i` of the run `p`, holding the lock, found nobody answering on the socket, whose entry was `socket`. */
  ghost predicate FoundSilent(init: State, run: seq<Step>, i: nat, p: Pid, socket: Option<Pid>)
  {
    && i < |run| && run[i].pid == p && run[i].event.Ping? && After(init, run[..i]).Some?
    && After(init, run[..i]).value.lock == Some(p)
    && After(init, run[..i]).value.socket == socket && !After(init, run[..i]).value.Answers()
  }

  lemma {:induction false} UnlinksWhatWasSilent(init: State, run: seq<Step>, p: Pid)
    requires Init(init) && After(init, run).Some? && After(init, run).value.Is(p, Unlinking)
    ensures exists i: nat :: FoundSilent(init, run, i, p, After(init, run).value.socket)
  {
    hide Enabled, Next, Inv;
    if run != [] {
      var before, last := run[..|run| - 1], run[|run| - 1];
      var s := After(init, before).value;
      RunKeepsInv(init, before);
      SocketWaits(s, last, p);
      ClearedByProbe(s, last, p);
      if s.Is(p, Unlinking) {
        UnlinksWhatWasSilent(init, before, p);
        var i: nat :| FoundSilent(init, before, i, p, s.socket);
        assert before[..i] == run[..i];
        assert FoundSilent(init, run, i, p, s.socket);
      } else {
        OwnerHolds(s, p);
        assert FoundSilent(init, run, |run| - 1, p, s.socket);
      }
    }
  }

  lemma {:induction false} LegacyWasLegacy(init: State, run: seq<Step>, i: nat, v: Pid)
    requires i <= |run| && After(init, run).Some? && After(init, run[..i]).Some? && After(init, run).value.Is(v, Legacy)
    ensures After(init, run[..i]).value.Is(v, Legacy)
    decreases |run|
  {
    hide Enabled, Next;
    if i < |run| {
      var before := run[..|run| - 1];
      assert before[..i] == run[..i];
      LegacyStep(After(init, before).value, run[|run| - 1], v);
      LegacyWasLegacy(init, before, i, v);
    } else {
      assert run[..i] == run;
    }
  }

  lemma LegacyStep(s: State, step: Step, v: Pid)
    requires Enabled(s, step) && Next(s, step).Is(v, Legacy)
    ensures s.Is(v, Legacy)
  {
  }

  lemma SocketOfUnlinker(s: State, p: Pid, v: Pid)
    requires Inv(s) && s.Is(p, Unlinking) && s.socket == Some(v) && s.Live(v)
    ensures s.Is(v, Legacy)
  {
  }

  /**
   * A live daemon that is about to lose its socket is one from before the lock, and it was not answering when the
   * process that is about to unlink it, already holding the lock, last probed that socket.
   */
  lemma UnlinkedWasSilent(init: State, run: seq<Step>, p: Pid, v: Pid) returns (i: nat)
    requires Init(init) && After(init, run).Some?
    requires var s := After(init, run).value; s.Is(p, Unlinking) && s.socket == Some(v) && s.Live(v)
    ensures After(init, run).value.Is(v, Legacy)
    ensures FoundSilent(init, run, i, p, Some(v)) && v in After(init, run[..i]).value.hung
  {
    hide Inv, Init, After;
    RunKeepsInv(init, run);
    SocketOfUnlinker(After(init, run).value, p, v);
    UnlinksWhatWasSilent(init, run, p);
    i :| FoundSilent(init, run, i, p, Some(v));
    LegacyWasLegacy(init, run, i, v);
  }
}
