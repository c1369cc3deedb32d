/** The steps of a run that complete an exit, whichever request or event does it, and what
    each of them guarantees. */
module ProcCompletions {
  import opened Wrappers
  import opened ProcTable
  import opened ProcInvariants
  import opened ProcSteps
  import opened ProcExit
  import opened ProcRuns
  import opened ProcTheorems
  import opened ProcReports
  import opened ProcOrphans

  /** The step from `m` to `m'` completed the exit of `p`. */
  ghost predicate NewlyExited(m: Mgr, m': Mgr, p: Pid)
  {
    && p in m.processes && !m.processes[p].status.Exited?
    && p in m'.processes && m'.processes[p].status.Exited?
  }

  // ---------------------------------------------------------------- who exits

  ghost predicate NobodyExits(m: Mgr, m': Mgr)
  {
    forall q :: q in m.processes && q in m'.processes ==>
      (m'.processes[q].status.Exited? ==> m.processes[q].status.Exited?)
  }

  /** Same processes, and only `p` may have exited. */
  ghost predicate OnlyExits(m: Mgr, m': Mgr, p: Pid)
  {
    && m'.processes.Keys == m.processes.Keys
    && forall q :: q in m.processes && q != p ==>
         (m'.processes[q].status.Exited? ==> m.processes[q].status.Exited?)
  }

  lemma OnlyExitsTransitive(a: Mgr, b: Mgr, c: Mgr, p: Pid)
    requires OnlyExits(a, b, p) && OnlyExits(b, c, p)
    ensures OnlyExits(a, c, p)
  {
  }

  lemma MildNobodyExits(m: Mgr, m': Mgr, p: Pid)
    requires Mild(m, m')
    ensures NobodyExits(m, m') && OnlyExits(m, m', p)
  {
    forall q | q in m.processes
      ensures m'.processes[q].status.Exited? ==> m.processes[q].status.Exited?
    {
      assert MildProc(m.processes[q], m'.processes[q]);
    }
  }

  lemma OrphanStepNobodyExits(m: Mgr, p: Pid, pgid: Pid, c: Choice)
    requires INIT in m.processes
    ensures OnlyExits(m, OrphanStep(m, p, pgid, c), p)
  {
    var m1 := WakeWaiters(m, INIT);
    var kids := ChildrenOf(m1, p, c.procs);
    var m2, m' := Reparent(m1, kids), OrphanStep(m, p, pgid, c);
    WakeWaitersMild(m, INIT);
    MildNobodyExits(m, m1, p);
    ReparentSpec(m1, kids);
    assert OnlyExits(m1, m2, p);
    ContinueOrphansMild(m2, m1, AffectedGroups(m1, kids, pgid), c.groups, c);
    MildNobodyExits(m2, m', p);
    OnlyExitsTransitive(m, m1, m2, p);
    OnlyExitsTransitive(m, m2, m', p);
  }

  lemma FileEventNobodyExits(m: Mgr, parent: Pid, p: Pid, pgid: Pid, e: Event, q: Pid)
    requires parent in m.processes
    ensures OnlyExits(m, FileEvent(m, parent, p, pgid, e), q)
  {
    FileEventShape(m, parent, p, pgid, e);
  }

  /** Completing the exit of `p` completes nobody else's. */
  lemma FinishExitsOne(m: Mgr, p: Pid, how: Exit, c: Choice)
    requires p in m.processes
    ensures OnlyExits(m, FinishExit(m, p, how, c), p)
  {
    var proc := m.processes[p];
    var m1 := Put(m, p, proc.(status := Exited(how)));
    assert OnlyExits(m, m1, p);
    if proc.ppid in m1.processes {
      var m2 := if INIT in m1.processes then OrphanStep(m1, p, proc.pgid, c) else m1;
      if INIT in m1.processes { OrphanStepNobodyExits(m1, p, proc.pgid, c); }
      FileEventNobodyExits(m2, proc.ppid, p, proc.pgid, Terminated(how), p);
      OnlyExitsTransitive(m, m1, m2, p);
      OnlyExitsTransitive(m, m2, FileEvent(m2, proc.ppid, p, proc.pgid, Terminated(how)), p);
    }
  }

  lemma ForkNobodyExits(m: Mgr, p: Pid, t: Thread, ok: bool)
    requires Numbered(m)
    ensures NobodyExits(m, Fork(m, p, t, ok).0)
  {
    assert m.nextId !in m.processes;
  }

  lemma RegroupNobodyExits(m: Mgr, p: Pid, parent: Option<Pid>, g: Pid)
    requires p in m.processes && (parent.Some? ==> parent.value in m.processes && parent.value != p)
    ensures var m' := ChangePgid(m, p, parent, g).0;
            m'.processes.Keys == m.processes.Keys && NobodyExits(m, m')
  {
  }

  lemma SetsidNobodyExits(m: Mgr, p: Pid)
    ensures NobodyExits(m, Setsid(m, p).0)
  {
    if Setsid(m, p).0 != m {
      SetsidShape(m, p);
      RegroupNobodyExits(m, p, ParentOf(m, p), p);
    }
  }

  lemma SetpgidNobodyExits(m: Mgr, caller: Pid, p: Pid, g: Pid)
    ensures NobodyExits(m, Setpgid(m, caller, p, g).0)
  {
    if p in m.processes && m.processes[p].ppid == p { RegroupNobodyExits(m, p, None, g); }
    if p in m.processes && m.processes[p].ppid != p && m.processes[p].ppid in m.processes {
      RegroupNobodyExits(m, p, Some(m.processes[p].ppid), g);
    }
  }

  lemma WaitNobodyExits(m: Mgr, v: Vid, c: Choice)
    requires v in m.states && m.states[v].AwaitingStatusChange?
    ensures NobodyExits(m, WorkOn(m, v, c).0)
  {
    var s := m.states[v];
    WaitpidShrinks(SetState(m, v, Placeholder), s.waiter, s.target, s.flags, v, c);
  }

  /** A process that is not ending has a thread, so asking it to exit only starts the exit. */
  lemma ExitRequestNobodyExits(m: Mgr, p: Pid, raw: U16, tag: nat, c: Choice)
    requires ThreadlessEnding(m, {})
    ensures NobodyExits(m, ExitRequest(m, p, raw, tag, c).0)
  {
    var v, how, m0 := Kernel(tag), ParseExit(raw), DropState(m, Kernel(tag));
    if p in m.processes && !Ending(m.processes[p].status) && how.Some? {
      AcceptedIsParked(m0, p, how.value, v, Some(tag), c);
    }
  }

  lemma AcceptedIsParked(m: Mgr, p: Pid, how: Exit, v: Vid, owner: Option<nat>, c: Choice)
    requires p in m.processes && m.processes[p].threads != []
    ensures NobodyExits(m, WorkOnTerm(AcceptExit(m, p, how, v, owner), v, p, owner, c).0)
  {
    WorkOnTermShape(AcceptExit(m, p, how, v, owner), v, p, owner, c);
  }

  // ---------------------------------------------------------------- the two ways to complete an exit

  /** `m0` is `m` about to complete the exit of `p`: the exit is accepted, no thread is left. */
  ghost predicate Prelude(m: Mgr, m0: Mgr, p: Pid, how: Exit)
  {
    && p in m.processes && p in m0.processes && m0.groups == m.groups && m0.nextId == m.nextId
    && m0.processes.Keys == m.processes.Keys
    && (forall q :: q in m.processes && q != p ==> m0.processes[q] == m.processes[q])
    && m0.processes[p] == m.processes[p].(threads := [], status := Exiting(how),
                                          awaitingTerm := m0.processes[p].awaitingTerm)
    && p in m0.accepted && m0.accepted[p] == how
  }

  lemma WakeCompletes(m: Mgr, c: Choice, p: Pid) returns (m0: Mgr, how: Exit)
    requires Inv(m, {}) && m.awoken != [] && NewlyExited(m, WakeNext(m, c).0, p)
    ensures Prelude(m, m0, p, how) && WakeNext(m, c).0 == FinishExit(m0, p, how, c)
    ensures m0.awoken == m.awoken[1..]
  {
    var v, m1 := m.awoken[0], m.(awoken := m.awoken[1..]);
    assert v in m.states;
    if m.states[v].AwaitingStatusChange? { WaitNobodyExits(m1, v, c); }
    assert m.states[v].AwaitingTerm?;
    var r := m.states[v].pid;
    WorkOnTermShape(m1, v, r, m.states[v].owner, c);
    assert r in m.processes && m.processes[r].threads == [] && m.processes[r].status.Exiting?;
    how, m0 := m.processes[r].status.how, DropState(m1, v);
    FinishExitsOne(m0, r, how, c);
  }

  /** The death of `t` leaves a process that is not ending without a thread. */
  ghost predicate LastThread(m: Mgr, t: Thread, d: Death)
  {
    && t in m.lookup && m.lookup[t] in m.processes && !d.Spurious?
    && !Ending(m.processes[m.lookup[t]].status) && Without(m.processes[m.lookup[t]].threads, t) == []
  }

  lemma OtherDeathsCompleteNothing(m: Mgr, t: Thread, d: Death, c: Choice)
    requires StatesNumbered(m) && !LastThread(m, t, d)
    ensures NobodyExits(m, ThreadEvent(m, t, d, c))
  {
  }

  /** What the exit of a process without threads works on, once accepted. */
  ghost function Accepted(m: Mgr, t: Thread, how: Exit): (m0: Mgr)
    requires t in m.lookup && m.lookup[t] in m.processes
  {
    var v := Internal(m.nextInternal);
    DropState(AcceptExit(TakeInternal(LoseThread(m, t)), m.lookup[t], how, v, None), v)
  }

  lemma LastThreadEvent(m: Mgr, t: Thread, d: Death, c: Choice, how: Exit)
    requires LastThread(m, t, d) && Internal(m.nextInternal) !in m.states && ParseExit(RawStatus(d)) == Some(how)
    ensures ThreadEvent(m, t, d, c) == FinishExit(Accepted(m, t, how), m.lookup[t], how, c)
  {
    var v, m1 := Internal(m.nextInternal), TakeInternal(LoseThread(m, t));
    WorkOnTermShape(AcceptExit(m1, m.lookup[t], how, v, None), v, m.lookup[t], None, c);
  }

  lemma AcceptedPrelude(m: Mgr, t: Thread, how: Exit)
    requires t in m.lookup && m.lookup[t] in m.processes && Without(m.processes[m.lookup[t]].threads, t) == []
    ensures Prelude(m, Accepted(m, t, how), m.lookup[t], how) && Accepted(m, t, how).awoken == m.awoken
  {
  }

  lemma PreludeExits(m: Mgr, m0: Mgr, p: Pid, how: Exit, c: Choice, q: Pid)
    requires Prelude(m, m0, p, how) && NewlyExited(m, FinishExit(m0, p, how, c), q)
    ensures q == p
  {
    FinishExitsOne(m0, p, how, c);
  }

  lemma ThreadDeathCompletes(m: Mgr, t: Thread, d: Death, c: Choice, p: Pid) returns (m0: Mgr, how: Exit)
    requires Inv(m, {}) && NewlyExited(m, ThreadEvent(m, t, d, c), p)
    ensures Prelude(m, m0, p, how) && ThreadEvent(m, t, d, c) == FinishExit(m0, p, how, c)
    ensures m0.awoken == m.awoken
  {
    if !LastThread(m, t, d) { OtherDeathsCompleteNothing(m, t, d, c); }
    DeathIsAnExit(d);
    FreshInternal(m);
    how := ParseExit(RawStatus(d)).value;
    m0 := Accepted(m, t, how);
    LastThreadEvent(m, t, d, c, how);
    AcceptedPrelude(m, t, how);
    PreludeExits(m, m0, m.lookup[t], how, c, p);
  }

  /** Only a turn of the wake-up loop and the death of a last thread complete an exit, and both
      do it from a table in which the exit is accepted and no thread is left. */
  lemma Completion(m: Mgr, a: Action, p: Pid) returns (m0: Mgr, how: Exit, c: Choice)
    requires Inv(m, {}) && Enabled(m, a) && NewlyExited(m, Next(m, a).0, p)
    ensures Prelude(m, m0, p, how) && ValidChoice(m0, c) && Next(m, a).0 == FinishExit(m0, p, how, c)
    ensures m0.awoken == m.awoken || (m.awoken != [] && m0.awoken == m.awoken[1..])
  {
    if !a.DoWake? && !a.DoThreadEvent? { OtherActionsCompleteNothing(m, a); }
    c := a.choice;
    if a.DoWake? {
      m0, how := WakeCompletes(m, c, p);
    } else {
      m0, how := ThreadDeathCompletes(m, a.t, a.death, c, p);
    }
  }

  lemma NewThreadNobodyExits(m: Mgr, p: Pid, t: Thread, ok: bool)
    ensures NobodyExits(m, NewThread(m, p, t, ok).0)
  {
  }

  lemma SetresuidNobodyExits(m: Mgr, p: Pid, r: Option<nat>, e: Option<nat>, s: Option<nat>)
    ensures NobodyExits(m, Setresuid(m, p, r, e, s).0)
  {
    SetresuidMild(m, p, r, e, s);
    MildNobodyExits(m, Setresuid(m, p, r, e, s).0, p);
  }

  lemma AttributesNobodyExits(m: Mgr, p: Pid)
    ensures NobodyExits(m, DisableSetpgid(m, p).0) && NobodyExits(m, SyncSigPctl(m, p).0)
  {
    AttributesMild(m, p);
    MildNobodyExits(m, DisableSetpgid(m, p).0, p);
    MildNobodyExits(m, SyncSigPctl(m, p).0, p);
  }

  lemma KillNobodyExits(m: Mgr, caller: Pid, target: KillTarget, sig: nat, c: Choice)
    ensures NobodyExits(m, Kill(m, caller, target, sig, c))
  {
    KillMild(m, caller, target, sig, c);
    MildNobodyExits(m, Kill(m, caller, target, sig, c), caller);
  }

  lemma WaitRequestNobodyExits(m: Mgr, p: Pid, target: Target, flags: WaitFlags, tag: nat, c: Choice)
    ensures NobodyExits(m, WaitRequest(m, p, target, flags, tag, c).0)
  {
    WaitNobodyExits(SetState(m, Kernel(tag), AwaitingStatusChange(p, target, flags, tag)), Kernel(tag), c);
  }

  lemma CancelNobodyExits(m: Mgr, tag: nat)
    ensures NobodyExits(m, Cancel(m, tag).0)
  {
  }

  ghost predicate ChangesRecords(a: Action)
  {
    || a.DoFork? || a.DoNewThread? || a.DoSetsid? || a.DoSetpgid?
    || a.DoSetresuid? || a.DoDisableSetpgid? || a.DoSyncSigPctl?
  }

  lemma RecordChangesCompleteNothing(m: Mgr, a: Action)
    requires Numbered(m) && Enabled(m, a) && ChangesRecords(a)
    ensures NobodyExits(m, Next(m, a).0)
  {
    match a {
      case DoFork(p, t, ok) => ForkNobodyExits(m, p, t, ok);
      case DoNewThread(p, t, ok) => NewThreadNobodyExits(m, p, t, ok);
      case DoSetsid(p) => SetsidNobodyExits(m, p);
      case DoSetpgid(caller, p, g) => SetpgidNobodyExits(m, caller, p, g);
      case DoSetresuid(p, r, e, s) => SetresuidNobodyExits(m, p, r, e, s);
      case DoDisableSetpgid(p) => AttributesNobodyExits(m, p);
      case DoSyncSigPctl(p) => AttributesNobodyExits(m, p);
      case _ =>
    }
  }

  lemma OtherActionsCompleteNothing(m: Mgr, a: Action)
    requires Numbered(m) && ThreadlessEnding(m, {}) && Enabled(m, a) && !a.DoWake? && !a.DoThreadEvent?
    ensures NobodyExits(m, Next(m, a).0)
  {
    match a {
      case DoKill(caller, target, sig, c) => KillNobodyExits(m, caller, target, sig, c);
      case DoExit(p, raw, tag, c) => ExitRequestNobodyExits(m, p, raw, tag, c);
      case DoWait(p, target, flags, tag, c) => WaitRequestNobodyExits(m, p, target, flags, tag, c);
      case DoCancel(tag) => CancelNobodyExits(m, tag);
      case _ => RecordChangesCompleteNothing(m, a);
    }
  }

  // ---------------------------------------------------------------- what every completion guarantees

  lemma SameLinksKeep(m: Mgr, m': Mgr)
    requires Coherent(m) && SameLinks(m, m') && m'.nextId == m.nextId
    ensures Coherent(m')
  {
  }

  lemma PreludeLinks(m: Mgr, m0: Mgr, p: Pid, how: Exit)
    requires Prelude(m, m0, p, how)
    ensures SameLinks(m, m0)
  {
  }

  /** Groups stay as they are, and besides `p` a process is still stopped exactly if it was
      stopped and its group was not newly orphaned or init may not signal it. */
  ghost predicate ContinuesOthers(m: Mgr, m': Mgr, p: Pid)
  {
    && m'.groups == m.groups && m'.processes.Keys == m.processes.Keys
    && forall q :: q in m.processes ==>
         && m'.processes[q].pgid == m.processes[q].pgid
         && (m'.processes[q].status.Stopped? <==>
             && m.processes[q].status.Stopped? && q != p
             && !(NewlyOrphaned(m, m', m.processes[q].pgid) && InitMaySignal(m, q)))
  }

  lemma ContinuesFrom(m: Mgr, m0: Mgr, m': Mgr, p: Pid, how: Exit)
    requires Prelude(m, m0, p, how) && SameLinks(m, m0) && ContinuesNewOrphans(m0, m')
    ensures ContinuesOthers(m, m', p)
  {
    forall g ensures Orphaned(m0, g) == Orphaned(m, g) {
      OrphanedDependsOnLinks(m, m0, g);
    }
  }

  lemma PreludeContinues(m: Mgr, m0: Mgr, p: Pid, how: Exit, c: Choice)
    requires Prelude(m, m0, p, how) && Coherent(m) && StatusesTruthful(m) && ValidChoice(m0, c)
    ensures ContinuesOthers(m, FinishExit(m0, p, how, c), p)
  {
    PreludeLinks(m, m0, p, how);
    SameLinksKeep(m, m0);
    ExitContinuesExactlyNewOrphans(m0, p, how, c);
    ContinuesFrom(m, m0, FinishExit(m0, p, how, c), p, how);
  }

  lemma PreludeAdopts(m: Mgr, m0: Mgr, p: Pid, how: Exit, c: Choice)
    requires Prelude(m, m0, p, how) && Coherent(m) && StatusesTruthful(m) && ValidChoice(m0, c)
    ensures var m' := FinishExit(m0, p, how, c);
            if m.processes[p].ppid in m.processes && INIT in m.processes then Adopted(m, m', p) else SameLinks(m, m')
  {
    PreludeLinks(m, m0, p, how);
    SameLinksKeep(m, m0);
    ExitAdopts(m0, p, how, c);
  }

  /** At any point of any run, whichever step completes the exit of `p`: exactly the children of
      `p` become children of init, if init and the parent of `p` are there; otherwise no process
      changes its parent. */
  lemma CompletedExitsHandOverChildren(t: Thread, actions: seq<Action>, a: Action, p: Pid)
    requires Run(t, actions).At? && Enabled(Run(t, actions).m, a)
    requires NewlyExited(Run(t, actions).m, Next(Run(t, actions).m, a).0, p)
    ensures var m, m' := Run(t, actions).m, Next(Run(t, actions).m, a).0;
            if m.processes[p].ppid in m.processes && INIT in m.processes then Adopted(m, m', p) else SameLinks(m, m')
  {
    RunKeeps(t, actions);
    var m0, how, c := Completion(Run(t, actions).m, a, p);
    PreludeAdopts(Run(t, actions).m, m0, p, how, c);
  }

  /** At any point of any run, whichever step completes the exit of `p`: the processes that were
      stopped and no longer are, are exactly the members of the groups it newly orphaned, of
      those that init may signal. */
  lemma NewOrphansAreContinued(t: Thread, actions: seq<Action>, a: Action, p: Pid)
    requires Run(t, actions).At? && Enabled(Run(t, actions).m, a)
    requires NewlyExited(Run(t, actions).m, Next(Run(t, actions).m, a).0, p)
    ensures ContinuesOthers(Run(t, actions).m, Next(Run(t, actions).m, a).0, p)
  {
    RunKeeps(t, actions);
    var m := Run(t, actions).m;
    var m0, how, c := Completion(m, a, p);
    PreludeContinues(m, m0, p, how, c);
  }

  /** Hence a member of a group that a completed exit newly orphaned is left stopped if and only
      if it was stopped and init may not signal it. */
  lemma NewOrphansLeftStoppedExactly(t: Thread, actions: seq<Action>, a: Action, p: Pid, g: Pid, q: Pid)
    requires Run(t, actions).At? && Enabled(Run(t, actions).m, a)
    requires NewlyExited(Run(t, actions).m, Next(Run(t, actions).m, a).0, p)
    requires NewlyOrphaned(Run(t, actions).m, Next(Run(t, actions).m, a).0, g)
    requires g in Run(t, actions).m.groups && q in Run(t, actions).m.groups[g]
    ensures var m, m' := Run(t, actions).m, Next(Run(t, actions).m, a).0;
            && q in m.processes && q in m'.processes
            && (m'.processes[q].status.Stopped? <==>
                m.processes[q].status.Stopped? && q != p && !InitMaySignal(m, q))
  {
    RunKeeps(t, actions);
    NewOrphansAreContinued(t, actions, a, p);
  }

  lemma PreludeReports(m: Mgr, m0: Mgr, p: Pid, how: Exit, c: Choice)
    requires Prelude(m, m0, p, how) && m.processes[p].ppid in m.processes
    ensures var m', parent := FinishExit(m0, p, how, c), m.processes[p].ppid;
            && parent in m'.processes && m'.processes[parent].waiting == []
            && p in m'.processes[parent].waitpid && m'.processes[parent].waitpid[p].event == Terminated(how)
            && forall v :: v in m.processes[parent].waiting ==> v in m'.awoken
  {
    ExitIsReported(m0, p, how, c);
  }

  /** At any point of any run, whichever step completes the exit of `p`: `p` ends with the exit
      that was accepted for it; if its parent is there, the parent finds exactly that
      termination, and everyone who was waiting in the parent is on the wake-up queue. */
  lemma CompletedExitsAreReported(t: Thread, actions: seq<Action>, a: Action, p: Pid)
    requires Run(t, actions).At? && Enabled(Run(t, actions).m, a)
    requires NewlyExited(Run(t, actions).m, Next(Run(t, actions).m, a).0, p)
    ensures var m, m' := Run(t, actions).m, Next(Run(t, actions).m, a).0;
            var parent := m.processes[p].ppid;
            && p in m'.accepted && m'.processes[p].status == Exited(m'.accepted[p])
            && (parent in m.processes ==>
                  && parent in m'.processes && m'.processes[parent].waiting == []
                  && p in m'.processes[parent].waitpid
                  && m'.processes[parent].waitpid[p].event == Terminated(m'.accepted[p])
                  && forall v :: v in m.processes[parent].waiting ==> v in m'.awoken)
  {
    RunKeeps(t, actions);
    var m := Run(t, actions).m;
    var m0, how, c := Completion(m, a, p);
    FinishExitCalm(m0, p, how, c);
    if m.processes[p].ppid in m.processes { PreludeReports(m, m0, p, how, c); }
  }
}
