/** What the ownership protocol does not promise, and exactly when it happens. */
module OwnershipGaps {
  import opened Wrappers
  import opened Ownership

  /** Runs `steps` from `s`. */
  ghost predicate Leads(s: State, steps: seq<Step>, t: State)
    decreases |steps|
  {
    if steps == [] then t == s
    else Enabled(s, steps[0]) && Leads(Next(s, steps[0]), steps[1..], t)
  }

  lemma LeadsFirst(s: State, a: Step, steps: seq<Step>, t: State)
    requires Enabled(s, a) && Leads(Next(s, a), steps, t)
    ensures Leads(s, [a] + steps, t)
  {
    hide Enabled, Next;
    assert ([a] + steps)[1..] == steps;
  }

  lemma LeadsOne(s: State, a: Step)
    requires Enabled(s, a)
    ensures Leads(s, [a], Next(s, a))
  {
    hide Enabled, Next;
    assert Leads(Next(s, a), [], Next(s, a)) && [a][1..] == [];
  }

  // ---------------------------------------------------------------------------
  // Single steps
  // ---------------------------------------------------------------------------

  lemma PingStep(s: State, p: Pid, probe: Probe)
    requires s.Is(p, Clearing) || s.Is(p, Evicting)
    ensures Enabled(s, Step(p, Ping(probe))) <==> ProbeFits(s, probe)
    ensures ProbeFits(s, probe)
            ==> Next(s, Step(p, Ping(probe))) == Moved(s, p, if probe.Answered? then Evicting else Unlinking)
  {
    hide ProbeFits;
  }

  lemma UnlinkStep(s: State, p: Pid)
    requires p in s.procs
    ensures Enabled(s, Step(p, Unlink(true))) <==> s.Is(p, Unlinking)
    ensures s.Is(p, Unlinking) ==> Next(s, Step(p, Unlink(true))) == Moved(s.(socket := None), p, Binding)
  {
  }

  lemma BindStep(s: State, p: Pid)
    requires s.Is(p, Binding) && s.socket == None
    ensures Enabled(s, Step(p, Bind)) && Next(s, Step(p, Bind)) == Moved(s.(socket := Some(p)), p, Serving)
  {
  }

  lemma ResumeStep(s: State, p: Pid)
    requires s.Live(p)
    ensures Enabled(s, Step(p, Resume)) && Next(s, Step(p, Resume)) == s.(hung := s.hung - {p})
  {
    assert s.procs[p := s.procs[p]] == s.procs;
  }

  lemma RereadStep(s: State, q: Pid, v: Pid)
    requires s.Is(q, Rereading(v)) && s.recorded == Some(v)
    ensures Enabled(s, Step(q, ReadRecord)) && Next(s, Step(q, ReadRecord)) == Moved(s, q, Terminating(v))
  {
  }

  lemma ReprobeStep(s: State, q: Pid, v: Pid, probe: Probe)
    requires s.Is(q, Reprobing(v)) && ProbeFits(s, probe)
    ensures Enabled(s, Step(q, Ping(probe)))
    ensures Next(s, Step(q, Ping(probe))) == Moved(s, q, if probe.Wedged? then Rereading(v) else LastLook)
  {
    hide ProbeFits;
  }

  // ---------------------------------------------------------------------------
  // A daemon from before the lock keeps its socket exactly while it answers
  // ---------------------------------------------------------------------------

  /** `p` probes the socket once and then unlinks it. */
  ghost predicate Unlinks(s: State, p: Pid, probe: Probe, t: State)
  {
    Enabled(s, Step(p, Ping(probe)))
    && Enabled(Next(s, Step(p, Ping(probe))), Step(p, Unlink(true)))
    && t == Next(Next(s, Step(p, Ping(probe))), Step(p, Unlink(true)))
  }

  lemma UnlinksIfSilent(s: State, p: Pid, probe: Probe, t: State)
    requires s.Is(p, Clearing) || s.Is(p, Evicting)
    ensures Unlinks(s, p, probe, t)
            <==> ProbeFits(s, probe) && !probe.Answered?
                 && t == Moved(Moved(s, p, Unlinking).(socket := None), p, Binding)
  {
    hide Enabled, Next, ProbeFits;
    PingStep(s, p, probe);
    if ProbeFits(s, probe) {
      UnlinkStep(Moved(s, p, if probe.Answered? then Evicting else Unlinking), p);
    }
  }

  /**
   * From any state in which the holder is about to probe the socket of a live daemon from before the lock, it can
   * unlink the socket after that probe exactly when that daemon does not answer.
   */
  lemma OldDaemonLosesSocketIff(s: State, p: Pid, v: Pid)
    requires (s.Is(p, Clearing) || s.Is(p, Evicting)) && s.Is(v, Legacy) && s.socket == Some(v)
    ensures (exists probe, t :: Unlinks(s, p, probe, t)) <==> v in s.hung
    ensures forall probe, t :: Unlinks(s, p, probe, t) ==> t.socket == None && t.Is(v, Legacy)
  {
    hide Unlinks;
    forall probe, t ensures Unlinks(s, p, probe, t)
      <==> ProbeFits(s, probe) && !probe.Answered? && t == Moved(Moved(s, p, Unlinking).(socket := None), p, Binding)
    {
      UnlinksIfSilent(s, p, probe, t);
    }
    assert Unlinks(s, p, Dead, Moved(Moved(s, p, Unlinking).(socket := None), p, Binding)) <==> v in s.hung;
  }

  /** And such a state is three steps away whenever the lock is free. */
  lemma AnyoneCanStartClearing(s: State, p: Pid) returns (t: State)
    requires s.lock == None && p !in s.procs
    ensures Leads(s, [Step(p, Launch), Step(p, Take), Step(p, Truncate(false))], t)
    ensures t.Is(p, Clearing) && t.socket == s.socket && t.hung == s.hung
    ensures forall v :: v in s.procs ==> v in t.procs && t.procs[v] == s.procs[v]
  {
    var s1, a, b, c := s.(procs := s.procs[p := Trying]), Step(p, Launch), Step(p, Take), Step(p, Truncate(false));
    var s2 := Moved(s1.(lock := Some(p)), p, Truncating);
    t := Moved(s2, p, Clearing);
    LaunchStep(s, p);
    TakeStep(s1, p);
    TruncateStep(s2, p);
    hide Enabled, Next, Leads;
    LeadsOne(s2, c);
    LeadsFirst(s1, b, [c], t);
    LeadsFirst(s, a, [b] + [c], t);
    assert [a] + ([b] + [c]) == [a, b, c];
  }

  lemma LaunchStep(s: State, p: Pid)
    requires p !in s.procs
    ensures Enabled(s, Step(p, Launch)) && Next(s, Step(p, Launch)) == s.(procs := s.procs[p := Trying])
  {
  }

  lemma TakeStep(s: State, p: Pid)
    requires s.Is(p, Trying) && s.lock == None
    ensures Enabled(s, Step(p, Take)) && Next(s, Step(p, Take)) == Moved(s.(lock := Some(p)), p, Truncating)
  {
  }

  lemma TruncateStep(s: State, p: Pid)
    requires s.Is(p, Truncating)
    ensures Enabled(s, Step(p, Truncate(false))) && Next(s, Step(p, Truncate(false))) == Moved(s, p, Clearing)
  {
  }

  // ---------------------------------------------------------------------------
  // A daemon that answers is signalled exactly when it did not answer the last probe
  // ---------------------------------------------------------------------------

  /** `q` is about to signal `v`, which is listening and answers. */
  ghost predicate SignalsAnswering(t: State, q: Pid, v: Pid)
  {
    t.Is(q, Terminating(v)) && t.Is(v, Serving) && t.socket == Some(v) && t.Answers()
  }

  lemma SignalKills(t: State, q: Pid, v: Pid)
    requires SignalsAnswering(t, q, v)
    ensures Enabled(t, Step(q, Signal(true))) && !Next(t, Step(q, Signal(true))).Live(v)
  {
  }

  /** Not on the way to a signal any more. */
  predicate Past(phase: Phase)
  {
    phase == Gone || phase == LastLook || phase == Retaking || Owning(phase)
  }

  lemma PastStays(s: State, step: Step, q: Pid)
    requires Enabled(s, step) && q in s.procs && Past(s.procs[q])
    ensures q in Next(s, step).procs && Past(Next(s, step).procs[q])
  {
    hide ProbeFits;
  }

  lemma {:induction false} PastForGood(s: State, steps: seq<Step>, t: State, q: Pid)
    requires q in s.procs && Past(s.procs[q]) && Leads(s, steps, t)
    ensures q in t.procs && Past(t.procs[q])
    decreases |steps|
  {
    hide Enabled, Next, Past;
    if steps != [] {
      PastStays(s, steps[0], q);
      PastForGood(Next(s, steps[0]), steps[1..], t, q);
    }
  }

  /** Exited, or with a socket path that could not be unlinked. */
  predicate Stuck(s: State, v: Pid)
  {
    s.Is(v, Gone) || (s.Is(v, Binding) && s.socket.Some?)
  }

  lemma StuckStays(s: State, step: Step, v: Pid)
    requires Inv(s) && Enabled(s, step) && Stuck(s, v)
    ensures Stuck(Next(s, step), v)
  {
    hide Inv;
    OwnerHolds(s, v);
    if step.pid in s.procs {
      OwnerHolds(s, step.pid);
    }
  }

  lemma {:induction false} StuckForGood(s: State, steps: seq<Step>, t: State, v: Pid)
    requires Inv(s) && Stuck(s, v) && Leads(s, steps, t)
    ensures Stuck(t, v)
    decreases |steps|
  {
    hide Enabled, Next, Stuck, Inv;
    if steps != [] {
      StuckStays(s, steps[0], v);
      StepKeepsInv(s, steps[0]);
      StuckForGood(Next(s, steps[0]), steps[1..], t, v);
    }
  }

  predicate NobodyHangs(steps: seq<Step>)
  {
    forall step :: step in steps ==> !step.event.Hang?
  }

  lemma FromServing(s: State, q: Pid, v: Pid) returns (steps: seq<Step>, t: State)
    requires s.Is(q, Rereading(v)) && s.recorded == Some(v) && s.Is(v, Serving) && s.socket == Some(v)
    ensures Leads(s, steps, t) && SignalsAnswering(t, q, v) && NobodyHangs(steps)
  {
    var s1 := s.(hung := s.hung - {v});
    t := Moved(s1, q, Terminating(v));
    ResumeStep(s, v);
    RereadStep(s1, q, v);
    hide Enabled, Next, Leads;
    LeadsOne(s1, Step(q, ReadRecord));
    steps := [Step(v, Resume)] + [Step(q, ReadRecord)];
    LeadsFirst(s, Step(v, Resume), [Step(q, ReadRecord)], t);
  }

  lemma FromBinding(s: State, q: Pid, v: Pid) returns (steps: seq<Step>, t: State)
    requires s.Is(q, Rereading(v)) && s.recorded == Some(v) && s.Is(v, Binding) && s.socket == None
    ensures Leads(s, steps, t) && SignalsAnswering(t, q, v) && NobodyHangs(steps)
  {
    hide Enabled, Next, Leads, SignalsAnswering;
    BindStep(s, v);
    steps, t := FromServing(Moved(s.(socket := Some(v)), v, Serving), q, v);
    LeadsFirst(s, Step(v, Bind), steps, t);
    steps := [Step(v, Bind)] + steps;
  }

  lemma FromUnlinking(s: State, q: Pid, v: Pid) returns (steps: seq<Step>, t: State)
    requires s.Is(q, Rereading(v)) && s.recorded == Some(v) && s.Is(v, Unlinking)
    ensures Leads(s, steps, t) && SignalsAnswering(t, q, v) && NobodyHangs(steps)
  {
    hide Enabled, Next, Leads, SignalsAnswering;
    UnlinkStep(s, v);
    steps, t := FromBinding(Moved(s.(socket := None), v, Binding), q, v);
    LeadsFirst(s, Step(v, Unlink(true)), steps, t);
    steps := [Step(v, Unlink(true))] + steps;
  }

  lemma FromClearing(s: State, q: Pid, v: Pid) returns (steps: seq<Step>, t: State)
    requires s.Is(q, Rereading(v)) && s.recorded == Some(v) && (s.Is(v, Clearing) || s.Is(v, Evicting)) && !s.Answers()
    ensures Leads(s, steps, t) && SignalsAnswering(t, q, v) && NobodyHangs(steps)
  {
    hide Enabled, Next, Leads, SignalsAnswering;
    PingStep(s, v, Dead);
    steps, t := FromUnlinking(Moved(s, v, Unlinking), q, v);
    LeadsFirst(s, Step(v, Ping(Dead)), steps, t);
    steps := [Step(v, Ping(Dead))] + steps;
  }

  /** After an unanswered probe, the holder may come to answer before it is signalled. */
  lemma MayAnswerTooLate(s: State, q: Pid, v: Pid) returns (steps: seq<Step>, t: State)
    requires Inv(s) && s.Is(q, Rereading(v)) && s.Live(v) && !s.Answers() && !s.Is(v, Binding)
    ensures Leads(s, steps, t) && SignalsAnswering(t, q, v)
  {
    TargetIsHolder(s, q, v);
    ServingOwns(s, v);
    hide Inv, Leads, SignalsAnswering;
    if s.Is(v, Serving) {
      steps, t := FromServing(s, q, v);
    } else if s.Is(v, Unlinking) {
      steps, t := FromUnlinking(s, q, v);
    } else {
      steps, t := FromClearing(s, q, v);
    }
  }

  lemma ServingOwns(s: State, v: Pid)
    requires Inv(s)
    ensures s.Is(v, Serving) ==> s.socket == Some(v)
  {
  }

  /**
   * In every reachable state in which a displacer is about to probe again and its target lives: after that probe, some
   * continuation signals the target while it is listening and answers, exactly when the probe gets no answer from an
   * existing socket and the target has not failed to unlink that.
   */
  lemma AnsweringDaemonIsSignalledIff(init: State, run: seq<Step>, s: State, q: Pid, v: Pid, probe: Probe)
    requires Init(init) && After(init, run) == Some(s)
    requires s.Is(q, Reprobing(v)) && s.Live(v) && ProbeFits(s, probe)
    ensures Enabled(s, Step(q, Ping(probe)))
    ensures (exists steps, t :: Leads(Next(s, Step(q, Ping(probe))), steps, t) && SignalsAnswering(t, q, v))
            <==> probe.Wedged? && !s.Is(v, Binding)
  {
    hide Inv, Init, After, Leads, SignalsAnswering;
    RunKeepsInv(init, run);
    ReprobeStep(s, q, v, probe);
    var s1 := Moved(s, q, if probe.Wedged? then Rereading(v) else LastLook);
    StepKeepsInv(s, Step(q, Ping(probe)));
    TargetIsHolder(s, q, v);
    hide Enabled, Next;
    if probe.Wedged? && !s.Is(v, Binding) {
      var steps, t := MayAnswerTooLate(s1, q, v);
    } else {
      forall steps, t | Leads(s1, steps, t) ensures !SignalsAnswering(t, q, v) {
        if probe.Wedged? {
          StuckForGood(s1, steps, t, v);
        } else {
          PastForGood(s1, steps, t, q);
        }
        NotAnswering(t, q, v);
      }
    }
  }

  lemma NotAnswering(t: State, q: Pid, v: Pid)
    requires Stuck(t, v) || (q in t.procs && Past(t.procs[q]))
    ensures !SignalsAnswering(t, q, v)
  {
  }

  // ---------------------------------------------------------------------------
  // That situation arises without anyone hanging
  // ---------------------------------------------------------------------------

  lemma {:induction false} LeadsMore(s: State, steps: seq<Step>, t: State, more: seq<Step>, u: State)
    requires Leads(s, steps, t) && Leads(t, more, u)
    ensures Leads(s, steps + more, u)
    decreases |steps|
  {
    hide Enabled, Next;
    if steps == [] {
      assert steps + more == more;
    } else {
      LeadsMore(Next(s, steps[0]), steps[1..], t, more, u);
      assert (steps + more)[1..] == steps[1..] + more;
    }
  }

  lemma RecordSteps(s: State, p: Pid)
    requires s.Is(p, Truncating)
    ensures Enabled(s, Step(p, Truncate(true)))
            && Next(s, Step(p, Truncate(true))) == Moved(s.(recorded := None), p, Writing)
  {
  }

  lemma WriteStep(s: State, p: Pid)
    requires s.Is(p, Writing)
    ensures Enabled(s, Step(p, Write(true)))
            && Next(s, Step(p, Write(true))) == Moved(s.(recorded := Some(p)), p, Clearing)
  {
  }

  /** `p` takes the free lock and records itself. */
  lemma Takes(s: State, p: Pid) returns (t: State)
    requires s.lock == None && p !in s.procs
    ensures Leads(s, [Step(p, Launch), Step(p, Take), Step(p, Truncate(true)), Step(p, Write(true))], t)
    ensures t == s.(lock := Some(p), recorded := Some(p), procs := s.procs[p := Clearing])
  {
    var s1 := s.(procs := s.procs[p := Trying]);
    var a, b, c, d := Step(p, Launch), Step(p, Take), Step(p, Truncate(true)), Step(p, Write(true));
    var s2 := Moved(s1.(lock := Some(p)), p, Truncating);
    var s3 := Moved(s2.(recorded := None), p, Writing);
    t := Moved(s3.(recorded := Some(p)), p, Clearing);
    LaunchStep(s, p);
    TakeStep(s1, p);
    RecordSteps(s2, p);
    WriteStep(s3, p);
    hide Enabled, Next, Leads;
    LeadsOne(s3, d);
    LeadsFirst(s2, c, [d], t);
    LeadsFirst(s1, b, [c] + [d], t);
    LeadsFirst(s, a, [b] + ([c] + [d]), t);
    assert [a] + ([b] + ([c] + [d])) == [a, b, c, d];
    assert t.procs == s.procs[p := Clearing];
  }

  /** A move of `q` to `phase` that leaves all else alone. */
  ghost predicate Goes(s: State, q: Pid, e: Event, phase: Phase)
  {
    Enabled(s, Step(q, e)) && Next(s, Step(q, e)) == s.(procs := s.procs[q := phase])
  }

  lemma WaitsGoes(s: State, q: Pid)
    requires q in s.procs && s.socket.Some? && !s.Answers()
    ensures s.Is(q, Trying) ==> Goes(s, q, Busy, Probing)
    ensures s.Is(q, Probing) ==> Goes(s, q, Ping(Wedged), Waiting(true))
    ensures s.Is(q, Waiting(true)) ==> Goes(s, q, Timeout, Looking)
  {
  }

  lemma TargetsGoes(s: State, q: Pid, p: Pid)
    requires q in s.procs && s.recorded == Some(p) && p != q && s.Live(p) && p !in s.stoppers
    ensures s.Is(q, Looking) ==> Goes(s, q, Look(false), Reading)
    ensures s.Is(q, Reading) ==> Goes(s, q, ReadRecord, Verifying(p))
    ensures s.Is(q, Verifying(p)) ==> Goes(s, q, Verify(true), Reprobing(p))
  {
  }

  lemma RepeatedMove(s: State, q: Pid, phase: Phase, again: Phase)
    ensures s.(procs := s.procs[q := phase][q := again]) == s.(procs := s.procs[q := again])
  {
    assert s.procs[q := phase][q := again] == s.procs[q := again];
  }

  lemma GoesOn(s: State, steps: seq<Step>, b: State, q: Pid, phase: Phase, e: Event, again: Phase)
    requires Leads(s, steps, b.(procs := b.procs[q := phase])) && Goes(b.(procs := b.procs[q := phase]), q, e, again)
    ensures Leads(s, steps + [Step(q, e)], b.(procs := b.procs[q := again]))
  {
    hide Enabled, Next, Leads;
    RepeatedMove(b, q, phase, again);
    LeadsOne(b.(procs := b.procs[q := phase]), Step(q, e));
    LeadsMore(s, steps, b.(procs := b.procs[q := phase]), [Step(q, e)], b.(procs := b.procs[q := again]));
  }

  ghost function At(b: State, q: Pid, phase: Phase): State
  {
    b.(procs := b.procs[q := phase])
  }

  /** `q` finds the lock taken and nobody answering, until its deadline. */
  lemma Waits(b: State, q: Pid) returns (steps: seq<Step>)
    requires q !in b.procs && b.socket.Some? && !b.Answers()
    ensures Leads(b, steps, At(b, q, Looking)) && NobodyHangs(steps)
  {
    LaunchStep(b, q);
    LeadsOne(b, Step(q, Launch));
    hide Enabled, Next, Leads, Goes;
    steps := [Step(q, Launch)];
    WaitsGoes(At(b, q, Trying), q);
    GoesOn(b, steps, b, q, Trying, Busy, Probing);
    steps := steps + [Step(q, Busy)];
    WaitsGoes(At(b, q, Probing), q);
    GoesOn(b, steps, b, q, Probing, Ping(Wedged), Waiting(true));
    steps := steps + [Step(q, Ping(Wedged))];
    WaitsGoes(At(b, q, Waiting(true)), q);
    GoesOn(b, steps, b, q, Waiting(true), Timeout, Looking);
    steps := steps + [Step(q, Timeout)];
  }

  /** Then it goes for the holder. */
  lemma GoesForHolder(b: State, q: Pid, p: Pid) returns (steps: seq<Step>)
    requires q !in b.procs && b.recorded == Some(p) && b.Is(p, Clearing) && p !in b.stoppers && b.socket.Some?
             && !b.Answers()
    ensures Leads(b, steps, At(b, q, Reprobing(p))) && NobodyHangs(steps)
  {
    hide Enabled, Next, Leads, Goes;
    steps := Waits(b, q);
    TargetsGoes(At(b, q, Looking), q, p);
    GoesOn(b, steps, b, q, Looking, Look(false), Reading);
    steps := steps + [Step(q, Look(false))];
    TargetsGoes(At(b, q, Reading), q, p);
    GoesOn(b, steps, b, q, Reading, ReadRecord, Verifying(p));
    steps := steps + [Step(q, ReadRecord)];
    TargetsGoes(At(b, q, Verifying(p)), q, p);
    GoesOn(b, steps, b, q, Verifying(p), Verify(true), Reprobing(p));
    steps := steps + [Step(q, Verify(true))];
  }

  /**
   * Whenever the lock is free and a socket nobody answers is left over, one process can start, and another be about to
   * signal it while it listens and answers, without anyone hanging: it was probed before it listened.
   */
  lemma HealthyDaemonCanBeSignalled(s: State, p: Pid, q: Pid) returns (steps: seq<Step>, t: State)
    requires s.lock == None && s.socket.Some? && !s.Answers() && p !in s.procs && q !in s.procs && p != q
             && p !in s.stoppers
    ensures Leads(s, steps, t) && SignalsAnswering(t, q, p) && NobodyHangs(steps)
  {
    hide Enabled, Next, Leads, SignalsAnswering;
    var b := Takes(s, p);
    steps := [Step(p, Launch), Step(p, Take), Step(p, Truncate(true)), Step(p, Write(true))];
    var more := GoesForHolder(b, q, p);
    LeadsMore(s, steps, b, more, At(b, q, Reprobing(p)));
    steps := steps + more;
    ReprobeStep(At(b, q, Reprobing(p)), q, p, Wedged);
    var c := Moved(At(b, q, Reprobing(p)), q, Rereading(p));
    LeadsOne(At(b, q, Reprobing(p)), Step(q, Ping(Wedged)));
    LeadsMore(s, steps, At(b, q, Reprobing(p)), [Step(q, Ping(Wedged))], c);
    steps := steps + [Step(q, Ping(Wedged))];
    more, t := FromClearing(c, q, p);
    LeadsMore(s, steps, c, more, t);
    steps := steps + more;
  }
}
