/** The process manager's main guarantees, for every run. */
module ProcTheorems {
  import opened Wrappers
  import opened ProcTable
  import opened ProcInvariants
  import opened ProcSteps
  import opened ProcExit
  import opened ProcRuns

  // ---------------------------------------------------------------- exit completion

  /** Whenever the manager blocks for an event, every process without threads has completed
      its exit, and every unfinished exit is owned by a pending state parked with the process. */
  lemma ExitsComplete(t: Thread, actions: seq<Action>)
    requires Run(t, actions).At? && Run(t, actions).m.awoken == []
    ensures var m := Run(t, actions).m;
            forall p :: p in m.processes ==>
              && (m.processes[p].threads == [] ==> m.processes[p].status.Exited?)
              && (m.processes[p].status.Exiting? ==>
                    exists v :: v in m.processes[p].awaitingTerm && v in m.states
                                && m.states[v].AwaitingTerm? && m.states[v].pid == p)
  {
    RunKeeps(t, actions);
    var m := Run(t, actions).m;
    forall p | p in m.processes && m.processes[p].status.Exiting?
      ensures m.processes[p].threads != []
      ensures exists v :: v in m.processes[p].awaitingTerm && v in m.states
                          && m.states[v].AwaitingTerm? && m.states[v].pid == p
    {
      var v :| Owns(m, v, p, {});
    }
  }

  // ---------------------------------------------------------------- the process table

  /** In every run the table is coherent, and a session leader leads its own group. */
  lemma TableStaysCoherent(t: Thread, actions: seq<Action>)
    requires Run(t, actions).At?
    ensures var m := Run(t, actions).m;
            && (forall g :: g in m.groups ==> m.groups[g] != [])
            && (forall g, i :: g in m.groups && 0 <= i < |m.groups[g]| ==>
                  m.groups[g][i] in m.processes && m.processes[m.groups[g][i]].pgid == g)
            && (forall g, i, j :: g in m.groups && 0 <= i < j < |m.groups[g]| ==> m.groups[g][i] != m.groups[g][j])
            && (forall p :: p in m.processes ==>
                  m.processes[p].pgid in m.groups && p in m.groups[m.processes[p].pgid])
            && (forall p :: p in m.processes && m.processes[p].sid == p ==> m.processes[p].pgid == p)
            && (forall p :: p in m.processes && p != INIT ==> m.processes[p].ppid < p)
  {
    RunKeeps(t, actions);
  }

  ghost predicate ParentChain(m: Mgr, chain: seq<Pid>)
  {
    forall i :: 0 <= i < |chain| - 1 ==>
      chain[i] in m.processes && chain[i] != INIT && m.processes[chain[i]].ppid == chain[i + 1]
  }

  /** Parent links never lead back: a chain that leaves a process does not return to it. */
  lemma {:induction false} ParentChainsDescend(m: Mgr, chain: seq<Pid>)
    requires Numbered(m) && ParentChain(m, chain) && |chain| >= 2
    ensures chain[|chain| - 1] < chain[0]
  {
    if |chain| > 2 {
      var rest := chain[1..];
      forall i | 0 <= i < |rest| - 1
        ensures rest[i] in m.processes && rest[i] != INIT && m.processes[rest[i]].ppid == rest[i + 1]
      {
        assert rest[i] == chain[i + 1] && rest[i + 1] == chain[i + 2];
      }
      ParentChainsDescend(m, rest);
    }
    assert m.processes[chain[0]].ppid == chain[1];
  }

  // ---------------------------------------------------------------- final statuses

  ghost predicate StatusForward(a: Status, b: Status)
  {
    && (a.Exited? ==> b == a)
    && (a.Exiting? ==> b == a || b == Exited(a.how))
  }

  ghost predicate AcceptedGrows(m: Mgr, m': Mgr)
  {
    forall p :: p in m.accepted ==> p in m'.accepted && m'.accepted[p] == m.accepted[p]
  }

  /** Ended processes stay ended, accepted exits stay as they are, pids are not reused. */
  ghost predicate Forward(m: Mgr, m': Mgr)
  {
    && m.nextId <= m'.nextId && AcceptedGrows(m, m')
    && (forall p :: p in m.processes && p in m'.processes ==>
          StatusForward(m.processes[p].status, m'.processes[p].status))
    && (forall p :: p in m'.processes && p !in m.processes ==> p >= m.nextId)
  }

  lemma ForwardTransitive(a: Mgr, b: Mgr, c: Mgr)
    requires Numbered(a) && Forward(a, b) && Forward(b, c)
    ensures Forward(a, c)
  {
  }

  /** Same processes, same accepted exits; at most some exits were completed. */
  ghost predicate Calm(m: Mgr, m': Mgr)
  {
    && m'.nextId == m.nextId && m'.accepted == m.accepted
    && m'.processes.Keys == m.processes.Keys
    && forall p :: p in m.processes ==> CalmStatus(m.processes[p].status, m'.processes[p].status)
  }

  ghost predicate CalmStatus(a: Status, b: Status)
  {
    StatusForward(a, b) && (Ending(b) ==> Ending(a))
  }

  lemma OneRecordCalm(m: Mgr, m': Mgr, p: Pid)
    requires p in m.processes && p in m'.processes && m'.processes == m.processes[p := m'.processes[p]]
    requires m'.nextId == m.nextId && m'.accepted == m.accepted
    requires CalmStatus(m.processes[p].status, m'.processes[p].status)
    ensures Calm(m, m')
  {
  }

  lemma ReparentedCalm(m: Mgr, m': Mgr, kids: set<Pid>)
    requires Reparented(m, m', kids)
    ensures Calm(m, m')
  {
  }

  lemma MildCalm(m: Mgr, m': Mgr)
    requires Mild(m, m')
    ensures Calm(m, m')
  {
    forall p | p in m.processes ensures CalmStatus(m.processes[p].status, m'.processes[p].status) {
      assert MildProc(m.processes[p], m'.processes[p]);
    }
  }

  lemma CalmTransitive(a: Mgr, b: Mgr, c: Mgr)
    requires Calm(a, b) && Calm(b, c)
    ensures Calm(a, c)
  {
  }

  lemma OrphanStepCalm(m: Mgr, p: Pid, pgid: Pid, c: Choice)
    requires INIT in m.processes
    ensures Calm(m, OrphanStep(m, p, pgid, c))
  {
    var m1 := WakeWaiters(m, INIT);
    WakeWaitersMild(m, INIT);
    MildCalm(m, m1);
    var kids := ChildrenOf(m1, p, c.procs);
    var m2 := Reparent(m1, kids);
    ReparentSpec(m1, kids);
    ReparentedCalm(m1, m2, Elements(kids));
    ContinueOrphansMild(m2, m1, AffectedGroups(m1, kids, pgid), c.groups, c);
    MildCalm(m2, OrphanStep(m, p, pgid, c));
    CalmTransitive(m, m1, m2);
    CalmTransitive(m, m2, OrphanStep(m, p, pgid, c));
  }

  lemma FileExitCalm(m: Mgr, parent: Pid, p: Pid, pgid: Pid, e: Event)
    requires parent in m.processes
    ensures Calm(m, FileEvent(m, parent, p, pgid, e))
  {
    FileEventShape(m, parent, p, pgid, e);
    OneRecordCalm(m, FileEvent(m, parent, p, pgid, e), parent);
  }

  lemma FinishExitCalm(m: Mgr, p: Pid, how: Exit, c: Choice)
    requires p in m.processes && m.processes[p].status == Exiting(how)
    ensures Calm(m, FinishExit(m, p, how, c))
    ensures FinishExit(m, p, how, c).processes[p].status == Exited(how)
  {
    var proc := m.processes[p];
    var m1 := Put(m, p, proc.(status := Exited(how)));
    OneRecordCalm(m, m1, p);
    if proc.ppid in m1.processes {
      var m2 := if INIT in m1.processes then OrphanStep(m1, p, proc.pgid, c) else m1;
      if INIT in m1.processes { OrphanStepCalm(m1, p, proc.pgid, c); }
      CalmTransitive(m, m1, m2);
      FileExitCalm(m2, proc.ppid, p, proc.pgid, Terminated(how));
      CalmTransitive(m, m2, FileEvent(m2, proc.ppid, p, proc.pgid, Terminated(how)));
      StillExited(m1, m2, p);
      StillExited(m2, FileEvent(m2, proc.ppid, p, proc.pgid, Terminated(how)), p);
    }
  }

  lemma StillExited(m: Mgr, m': Mgr, p: Pid)
    requires (Calm(m, m') || m == m') && p in m.processes && m.processes[p].status.Exited?
    ensures p in m'.processes && m'.processes[p].status == m.processes[p].status
  {
  }

  lemma SameRecordsCalm(m: Mgr, m': Mgr)
    requires m'.processes == m.processes && m'.accepted == m.accepted && m'.nextId == m.nextId
    ensures Calm(m, m')
  {
  }

  lemma ParkCalm(m: Mgr, v: Vid, p: Pid, s: Pending)
    requires p in m.processes
    ensures Calm(m, SetState(Put(m, p, m.processes[p].(awaitingTerm := m.processes[p].awaitingTerm + [v])), v, s))
  {
    var proc := m.processes[p];
    OneRecordCalm(m, SetState(Put(m, p, proc.(awaitingTerm := proc.awaitingTerm + [v])), v, s), p);
  }

  lemma CompletionCalm(m: Mgr, v: Vid, p: Pid, how: Exit, c: Choice)
    requires p in m.processes && m.processes[p].status == Exiting(how)
    ensures Calm(m, FinishExit(DropState(m, v), p, how, c))
  {
    SameRecordsCalm(m, DropState(m, v));
    FinishExitCalm(DropState(m, v), p, how, c);
    CalmTransitive(m, DropState(m, v), FinishExit(DropState(m, v), p, how, c));
  }

  lemma WorkOnTermCalm(m: Mgr, v: Vid, p: Pid, owner: Option<nat>, c: Choice)
    ensures Calm(m, WorkOnTerm(m, v, p, owner, c).0)
  {
    WorkOnTermShape(m, v, p, owner, c);
    if p in m.processes && m.processes[p].threads == [] && m.processes[p].status.Exiting? {
      CompletionCalm(m, v, p, m.processes[p].status.how, c);
    } else if p in m.processes && m.processes[p].threads != [] {
      ParkCalm(m, v, p, AwaitingTerm(p, owner));
    } else {
      SameRecordsCalm(m, WorkOnTerm(m, v, p, owner, c).0);
    }
  }

  /** Nothing new appears, and what remains only moves forward. */
  ghost predicate Shrinks(m: Mgr, m': Mgr)
  {
    && m'.nextId == m.nextId && m'.accepted == m.accepted
    && m'.processes.Keys <= m.processes.Keys
    && forall p :: p in m'.processes ==> m'.processes[p].status == m.processes[p].status
  }

  lemma DeliverShrinks(m: Mgr, p: Pid, w: Pid, e: Event, flags: WaitFlags)
    requires p in m.processes
    ensures Shrinks(m, Deliver(RemoveEntry(m, p, w), w, e, flags).0)
  {
  }

  lemma TakeOrWaitShrinks(m: Mgr, p: Pid, found: Option<Pid>, flags: WaitFlags, v: Vid)
    requires p in m.processes
    requires found.Some? ==> found.value in m.processes[p].waitpid
    ensures Shrinks(m, TakeOrWait(m, p, found, flags, v).0)
  {
    if found.Some? { DeliverShrinks(m, p, found.value, m.processes[p].waitpid[found.value].event, flags); }
  }

  lemma WaitpidShrinks(m: Mgr, p: Pid, target: Target, flags: WaitFlags, v: Vid, c: Choice)
    ensures Shrinks(m, Waitpid(m, p, target, flags, v, c).0)
  {
    WaitpidShape(m, p, target, flags, v, c);
    if p in m.processes {
      TakeOrWaitShrinks(m, p, Lookup(m, p, target, c), flags, v);
      if SeesExit(m, target) { DeliverShrinks(m, p, target.pid, ExitSeen(m, target), flags); }
    }
  }

  lemma WorkOnForward(m: Mgr, v: Vid, c: Choice)
    requires v in m.states
    ensures Forward(m, WorkOn(m, v, c).0)
  {
    match m.states[v] {
      case Placeholder =>
      case AwaitingTerm(p, owner) => WorkOnTermCalm(m, v, p, owner, c);
      case AwaitingStatusChange(p, target, flags, tag) =>
        WaitpidShrinks(SetState(m, v, Placeholder), p, target, flags, v, c);
    }
  }

  lemma AcceptExitForward(m: Mgr, p: Pid, how: Exit, v: Vid, owner: Option<nat>)
    requires p in m.processes && !Ending(m.processes[p].status) && p !in m.accepted
    ensures Forward(m, AcceptExit(m, p, how, v, owner))
  {
  }

  lemma ExitStartForward(m: Mgr, p: Pid, how: Option<Exit>, v: Vid, owner: Option<nat>, c: Choice)
    requires Numbered(m) && StatusesTruthful(m)
    ensures Forward(m, ExitStart(m, p, how, v, owner, c).0)
  {
    if p in m.processes && !Ending(m.processes[p].status) && how.Some? {
      var m1 := AcceptExit(m, p, how.value, v, owner);
      AcceptExitForward(m, p, how.value, v, owner);
      WorkOnTermCalm(m1, v, p, owner, c);
      ForwardTransitive(m, m1, ExitStart(m, p, how, v, owner, c).0);
    }
  }

  lemma LoseThreadForward(m: Mgr, t: Thread)
    requires t in m.lookup && m.lookup[t] in m.processes
    ensures Forward(m, LoseThread(m, t)) && Forward(m, TakeInternal(LoseThread(m, t)))
    ensures Forward(m, WakeParked(LoseThread(m, t), m.lookup[t]))
  {
  }

  /** A thread's death changes nothing, or takes the thread and then at most wakes or starts an exit. */
  lemma ThreadEventShape(m: Mgr, t: Thread, d: Death, c: Choice)
    requires ThreadEvent(m, t, d, c) != m
    ensures t in m.lookup && m.lookup[t] in m.processes
    ensures var m', p, m1 := ThreadEvent(m, t, d, c), m.lookup[t], LoseThread(m, t);
            || m' == m1 || m' == TakeInternal(m1) || m' == WakeParked(m1, p)
            || (&& !m.processes[p].status.Exiting?
                && m' == ExitStart(TakeInternal(m1), p, ParseExit(RawStatus(d)), Internal(m.nextInternal), None, c).0)
  {
  }

  lemma ThreadEventForward(m: Mgr, t: Thread, d: Death, c: Choice)
    requires Inv(m, {})
    ensures Forward(m, ThreadEvent(m, t, d, c))
  {
    if ThreadEvent(m, t, d, c) != m {
      ThreadEventShape(m, t, d, c);
      LoseThreadForward(m, t);
      if !m.processes[m.lookup[t]].status.Exiting? {
        LastThreadForward(m, t, ParseExit(RawStatus(d)), Internal(m.nextInternal), c);
      }
    }
  }

  lemma LastThreadForward(m: Mgr, t: Thread, how: Option<Exit>, v: Vid, c: Choice)
    requires Inv(m, {}) && t in m.lookup && !m.processes[m.lookup[t]].status.Exiting?
    ensures Forward(m, ExitStart(TakeInternal(LoseThread(m, t)), m.lookup[t], how, v, None, c).0)
  {
    var m1 := TakeInternal(LoseThread(m, t));
    LoseThreadForward(m, t);
    LoseLastThread(m, t);
    ExitStartForward(m1, m.lookup[t], how, v, None, c);
    ForwardTransitive(m, m1, ExitStart(m1, m.lookup[t], how, v, None, c).0);
  }

  lemma MildForward(m: Mgr, m': Mgr)
    requires Mild(m, m')
    ensures Forward(m, m')
  {
    MildCalm(m, m');
  }

  lemma CalmForward(m: Mgr, m': Mgr)
    requires Calm(m, m')
    ensures Forward(m, m')
  {
  }

  lemma ForkForward(m: Mgr, p: Pid, t: Thread, ok: bool)
    requires Numbered(m)
    ensures Forward(m, Fork(m, p, t, ok).0)
  {
    assert m.nextId !in m.processes;
  }

  lemma NewThreadForward(m: Mgr, p: Pid, t: Thread, ok: bool)
    ensures Forward(m, NewThread(m, p, t, ok).0)
  {
  }

  lemma AttributesForward(m: Mgr, p: Pid, r: Option<nat>, e: Option<nat>, s: Option<nat>)
    ensures Forward(m, Setresuid(m, p, r, e, s).0)
    ensures Forward(m, DisableSetpgid(m, p).0) && Forward(m, SyncSigPctl(m, p).0)
  {
    SetresuidMild(m, p, r, e, s);
    AttributesMild(m, p);
    MildForward(m, Setresuid(m, p, r, e, s).0);
    MildForward(m, DisableSetpgid(m, p).0);
    MildForward(m, SyncSigPctl(m, p).0);
  }

  lemma KillForward(m: Mgr, caller: Pid, target: KillTarget, sig: nat, c: Choice)
    ensures Forward(m, Kill(m, caller, target, sig, c))
  {
    KillMild(m, caller, target, sig, c);
    MildForward(m, Kill(m, caller, target, sig, c));
  }

  lemma CancelForward(m: Mgr, tag: nat)
    ensures Forward(m, Cancel(m, tag).0)
  {
  }

  lemma ChangePgidForward(m: Mgr, p: Pid, parent: Option<Pid>, g: Pid)
    requires p in m.processes && (parent.Some? ==> parent.value in m.processes && parent.value != p)
    ensures Calm(m, ChangePgid(m, p, parent, g).0)
  {
  }

  lemma LeadSessionCalm(m: Mgr, p: Pid)
    requires p in m.processes
    ensures Calm(m, Put(m, p, m.processes[p].(sid := p)))
  {
    OneRecordCalm(m, Put(m, p, m.processes[p].(sid := p)), p);
  }

  lemma LeaveGroupForward(m: Mgr, m1: Mgr, p: Pid)
    requires Calm(m, m1) && p in m1.processes
    ensures Forward(m, m1) && Forward(m, Put(m1, p, m1.processes[p].(sid := p)))
  {
    LeadSessionCalm(m1, p);
    CalmTransitive(m, m1, Put(m1, p, m1.processes[p].(sid := p)));
    CalmForward(m, m1);
    CalmForward(m, Put(m1, p, m1.processes[p].(sid := p)));
  }

  function ParentOf(m: Mgr, p: Pid): (r: Option<Pid>)
    requires p in m.processes
    ensures r.Some? ==> r.value in m.processes
  {
    if m.processes[p].ppid in m.processes then Some(m.processes[p].ppid) else None
  }

  /** `setsid` changes nothing, or leaves the group, or leaves it and leads a session. */
  lemma SetsidShape(m: Mgr, p: Pid)
    requires Setsid(m, p).0 != m
    ensures p in m.processes && m.processes[p].ppid != p
    ensures var m1 := ChangePgid(m, p, ParentOf(m, p), p).0;
            p in m1.processes && (Setsid(m, p).0 == m1 || Setsid(m, p).0 == Put(m1, p, m1.processes[p].(sid := p)))
  {
  }

  lemma SetsidForward(m: Mgr, p: Pid)
    ensures Forward(m, Setsid(m, p).0)
  {
    if Setsid(m, p).0 != m {
      SetsidShape(m, p);
      ChangePgidForward(m, p, ParentOf(m, p), p);
      LeaveGroupForward(m, ChangePgid(m, p, ParentOf(m, p), p).0, p);
    }
  }

  lemma SetpgidForward(m: Mgr, caller: Pid, p: Pid, g: Pid)
    ensures Forward(m, Setpgid(m, caller, p, g).0)
  {
    if p in m.processes && m.processes[p].ppid == p { ChangePgidForward(m, p, None, g); }
    if p in m.processes && m.processes[p].ppid != p && m.processes[p].ppid in m.processes {
      ChangePgidForward(m, p, Some(m.processes[p].ppid), g);
    }
  }

  lemma ExitRequestForward(m: Mgr, p: Pid, raw: U16, tag: nat, c: Choice)
    requires Inv(m, {})
    ensures Forward(m, ExitRequest(m, p, raw, tag, c).0)
  {
    ExitStartForward(DropState(m, Kernel(tag)), p, ParseExit(raw), Kernel(tag), Some(tag), c);
  }

  lemma WaitRequestForward(m: Mgr, p: Pid, target: Target, flags: WaitFlags, tag: nat, c: Choice)
    ensures Forward(m, WaitRequest(m, p, target, flags, tag, c).0)
  {
    WorkOnForward(SetState(m, Kernel(tag), AwaitingStatusChange(p, target, flags, tag)), Kernel(tag), c);
  }

  lemma WakeNextForward(m: Mgr, c: Choice)
    requires m.awoken != []
    ensures Forward(m, WakeNext(m, c).0)
  {
    if m.awoken[0] in m.states { WorkOnForward(m.(awoken := m.awoken[1..]), m.awoken[0], c); }
  }

  lemma StepForward(m: Mgr, a: Action)
    requires Inv(m, {}) && Enabled(m, a)
    ensures Forward(m, Next(m, a).0)
  {
    match a {
      case DoFork(p, t, ok) => ForkForward(m, p, t, ok);
      case DoNewThread(p, t, ok) => NewThreadForward(m, p, t, ok);
      case DoSetsid(p) => SetsidForward(m, p);
      case DoSetpgid(caller, p, g) => SetpgidForward(m, caller, p, g);
      case DoSetresuid(p, r, e, s) => AttributesForward(m, p, r, e, s);
      case DoDisableSetpgid(p) => AttributesForward(m, p, None, None, None);
      case DoSyncSigPctl(p) => AttributesForward(m, p, None, None, None);
      case DoKill(caller, target, sig, c) => KillForward(m, caller, target, sig, c);
      case DoExit(p, raw, tag, c) => ExitRequestForward(m, p, raw, tag, c);
      case DoWait(p, target, flags, tag, c) => WaitRequestForward(m, p, target, flags, tag, c);
      case DoCancel(tag) => CancelForward(m, tag);
      case DoThreadEvent(t, d, c) => ThreadEventForward(m, t, d, c);
      case DoWake(c) => WakeNextForward(m, c);
    }
  }

  lemma RunSnoc(t: Thread, actions: seq<Action>, a: Action)
    requires Run(t, actions + [a]).At?
    ensures Run(t, actions).At? && Enabled(Run(t, actions).m, a)
    ensures Run(t, actions + [a]).m == Next(Run(t, actions).m, a).0
  {
    assert (actions + [a])[..|actions + [a]| - 1] == actions;
  }

  /** Whatever happens after `before`: no ended process becomes runnable or stopped again, no
      accepted exit changes, and no pid comes back. */
  lemma {:induction false} StatusesAreFinal(t: Thread, before: seq<Action>, after: seq<Action>)
    requires Run(t, before).At? && Run(t, before + after).At?
    ensures Forward(Run(t, before).m, Run(t, before + after).m)
    decreases |after|
  {
    if after == [] {
      assert before + after == before;
    } else {
      var init, a := before + after[..|after| - 1], after[|after| - 1];
      assert before + after == init + [a];
      RunSnoc(t, init, a);
      StatusesAreFinal(t, before, after[..|after| - 1]);
      RunKeeps(t, before);
      RunKeeps(t, init);
      StepForward(Run(t, init).m, a);
      ForwardTransitive(Run(t, before).m, Run(t, init).m, Run(t, before + after).m);
    }
  }

  // ---------------------------------------------------------------- truthful answers

  function DecodeWord(word: nat): (e: Event)
  {
    if word == 0xffff then Continued
    else if word % 256 == 0x7f then StoppedBy(word / 256)
    else Terminated(Exit(word % 256, word / 256))
  }

  /** A status word determines the event: terminations, stops and continues never collide. */
  lemma WordsAreUnambiguous(e: Event)
    requires ValidEvent(e)
    ensures DecodeWord(StatusWord(e)) == e
  {
  }

  type Records = map<Pid, Process>

  /** Some process holds the event `e` of process `w` for its waiters. */
  ghost predicate Filed(ps: Records, w: Pid, e: Event)
  {
    exists q :: q in ps && w in ps[q].waitpid && ps[q].waitpid[w].event == e
  }

  /** What a wait may report about `w`: a filed event, or the exit it sees in the record itself. */
  ghost predicate Reportable(ps: Records, w: Pid, e: Event)
  {
    || Filed(ps, w, e)
    || (w in ps && e.Terminated? && ps[w].status == Exited(e.how))
  }

  lemma ReportableIsTruthful(m: Mgr, w: Pid, e: Event)
    requires Truthful(m) && Reportable(m.processes, w, e)
    ensures EventTruthful(m, w, e)
  {
    if Filed(m.processes, w, e) {
      var q :| q in m.processes && w in m.processes[q].waitpid && m.processes[q].waitpid[w].event == e;
      assert EventTruthful(m, w, m.processes[q].waitpid[w].event);
    } else {
      ExitIsTruthful(m, w, e.how);
    }
  }

  ghost predicate IsReport(ps: Records, w: Pid, word: nat)
  {
    exists e :: Reportable(ps, w, e) && word == StatusWord(e)
  }

  ghost predicate GenuineAnswer(ps: Records, r: Result<Answer>)
  {
    r.Ok? && r.value.Waited? ==>
      r.value == Waited(0, 0) || IsReport(ps, r.value.pid, r.value.word)
  }

  lemma TakeOrWaitAnswer(m: Mgr, p: Pid, found: Option<Pid>, flags: WaitFlags, v: Vid)
    requires p in m.processes
    requires found.Some? ==> found.value in m.processes[p].waitpid
    ensures var polled := TakeOrWait(m, p, found, flags, v).1;
            polled.Ready? ==> GenuineAnswer(m.processes, polled.result)
  {
    if found.Some? {
      assert Reportable(m.processes, found.value, m.processes[p].waitpid[found.value].event);
    }
  }

  lemma WaitpidAnswer(m: Mgr, p: Pid, target: Target, flags: WaitFlags, v: Vid, c: Choice)
    ensures var polled := Waitpid(m, p, target, flags, v, c).1;
            polled.Ready? ==> GenuineAnswer(m.processes, polled.result)
  {
    WaitpidShape(m, p, target, flags, v, c);
    if p in m.processes {
      TakeOrWaitAnswer(m, p, Lookup(m, p, target, c), flags, v);
      if SeesExit(m, target) { assert Reportable(m.processes, target.pid, ExitSeen(m, target)); }
    }
  }

  lemma WorkOnAnswer(m: Mgr, v: Vid, c: Choice)
    requires v in m.states
    ensures WorkOn(m, v, c).1.Reply? ==> GenuineAnswer(m.processes, WorkOn(m, v, c).1.result)
  {
    if m.states[v].AwaitingStatusChange? {
      var s := m.states[v];
      var m0 := SetState(m, v, Placeholder);
      WaitpidAnswer(m0, s.waiter, s.target, s.flags, v, c);
    }
  }

  lemma WaitRequestAnswer(m: Mgr, p: Pid, target: Target, flags: WaitFlags, tag: nat, c: Choice)
    ensures var reply := WaitRequest(m, p, target, flags, tag, c).1;
            reply.Reply? ==> GenuineAnswer(m.processes, reply.result)
  {
    var m0 := SetState(m, Kernel(tag), AwaitingStatusChange(p, target, flags, tag));
    WorkOnAnswer(m0, Kernel(tag), c);
  }

  lemma WakeNextAnswer(m: Mgr, c: Choice)
    requires m.awoken != []
    ensures WakeNext(m, c).1.Reply? ==> GenuineAnswer(m.processes, WakeNext(m, c).1.result)
  {
    var m0 := m.(awoken := m.awoken[1..]);
    if m.awoken[0] in m.states { WorkOnAnswer(m0, m.awoken[0], c); }
  }

  lemma StepAnswer(m: Mgr, a: Action)
    requires Enabled(m, a)
    ensures Next(m, a).1.Reply? ==> GenuineAnswer(m.processes, Next(m, a).1.result)
  {
    match a {
      case DoWait(p, target, flags, tag, c) => WaitRequestAnswer(m, p, target, flags, tag, c);
      case DoWake(c) => WakeNextAnswer(m, c);
      case _ =>
    }
  }

  /** The step answers a wait with a status. */
  ghost predicate Reports(m: Mgr, a: Action, w: Pid, word: nat)
    requires Enabled(m, a)
  {
    var reply := Next(m, a).1;
    reply.Reply? && reply.result == Ok(Waited(w, word)) && (w, word) != (0, 0)
  }

  lemma ReportDecodes(m: Mgr, a: Action, w: Pid, word: nat)
    requires Truthful(m) && Enabled(m, a) && Reports(m, a, w, word)
    ensures var e := DecodeWord(word);
            Reportable(m.processes, w, e) && EventTruthful(m, w, e) && StatusWord(e) == word
  {
    StepAnswer(m, a);
    assert IsReport(m.processes, w, word);
    var e :| Reportable(m.processes, w, e) && word == StatusWord(e);
    ReportableIsTruthful(m, w, e);
    WordsAreUnambiguous(e);
  }

  /** In every run: a wait answer that reads as a termination names a process whose exit was
      accepted with exactly that signal and status. */
  lemma TerminationReportsAreTrue(t: Thread, actions: seq<Action>, a: Action, w: Pid, word: nat)
    requires Run(t, actions).At? && Enabled(Run(t, actions).m, a) && Reports(Run(t, actions).m, a, w, word)
    ensures var m, e := Run(t, actions).m, DecodeWord(word);
            && (e.Terminated? ==> w in m.accepted && m.accepted[w] == e.how)
            && StatusWord(e) == word
  {
    RunKeeps(t, actions);
    ReportDecodes(Run(t, actions).m, a, w, word);
  }

  // ---------------------------------------------------------------- the wake-up loop terminates

  ghost function ExitingSet(m: Mgr): (r: set<Pid>)
  {
    set p | p in m.processes && m.processes[p].status.Exiting?
  }

  ghost predicate LoopDecreases(m: Mgr, m': Mgr)
  {
    || |ExitingSet(m')| < |ExitingSet(m)|
    || (|ExitingSet(m')| <= |ExitingSet(m)| && |m'.awoken| < |m.awoken|)
  }

  lemma SmallerSet(a: set<Pid>, b: set<Pid>)
    requires a <= b
    ensures |a| <= |b|
  {
    assert b == a + (b - a);
  }

  lemma FinishExitShrinksSet(m: Mgr, p: Pid, how: Exit, c: Choice)
    requires p in m.processes && m.processes[p].status == Exiting(how)
    requires Calm(m, FinishExit(m, p, how, c)) && FinishExit(m, p, how, c).processes[p].status == Exited(how)
    ensures |ExitingSet(FinishExit(m, p, how, c))| < |ExitingSet(m)|
  {
    var m' := FinishExit(m, p, how, c);
    forall q | q in ExitingSet(m') ensures q in ExitingSet(m) - {p} {
      assert CalmStatus(m.processes[q].status, m'.processes[q].status);
    }
    SmallerSet(ExitingSet(m'), ExitingSet(m) - {p});
  }

  lemma WaitTurnShrinks(m: Mgr, p: Pid, target: Target, flags: WaitFlags, v: Vid, c: Choice)
    ensures var m' := Waitpid(m, p, target, flags, v, c).0;
            |ExitingSet(m')| <= |ExitingSet(m)| && m'.awoken == m.awoken
  {
    var m' := Waitpid(m, p, target, flags, v, c).0;
    WaitpidShrinks(m, p, target, flags, v, c);
    SmallerSet(ExitingSet(m'), ExitingSet(m));
  }

  lemma FinishTurnShrinks(m: Mgr, v: Vid, p: Pid, how: Exit, c: Choice)
    requires p in m.processes && m.processes[p].status == Exiting(how)
    ensures |ExitingSet(FinishExit(DropState(m, v), p, how, c))| < |ExitingSet(m)|
  {
    FinishExitCalm(DropState(m, v), p, how, c);
    FinishExitShrinksSet(DropState(m, v), p, how, c);
    assert ExitingSet(DropState(m, v)) == ExitingSet(m);
  }

  lemma OtherTurnKeeps(m: Mgr, v: Vid, p: Pid, owner: Option<nat>, c: Choice)
    requires !(p in m.processes && m.processes[p].threads == [] && m.processes[p].status.Exiting?)
    ensures var m' := WorkOnTerm(m, v, p, owner, c).0;
            ExitingSet(m') == ExitingSet(m) && m'.awoken == m.awoken
  {
  }

  lemma TermTurnShrinks(m: Mgr, v: Vid, p: Pid, owner: Option<nat>, c: Choice)
    ensures var m' := WorkOnTerm(m, v, p, owner, c).0;
            || |ExitingSet(m')| < |ExitingSet(m)|
            || (|ExitingSet(m')| <= |ExitingSet(m)| && m'.awoken == m.awoken)
  {
    if p in m.processes && m.processes[p].threads == [] && m.processes[p].status.Exiting? {
      FinishTurnShrinks(m, v, p, m.processes[p].status.how, c);
    } else {
      OtherTurnKeeps(m, v, p, owner, c);
    }
  }

  /** One turn of the wake-up loop completes an exit or shortens the queue: re-evaluating a
      wait enqueues nothing. */
  lemma WakeNextDecreases(m: Mgr, c: Choice)
    requires m.awoken != []
    ensures LoopDecreases(m, WakeNext(m, c).0)
  {
    var v, m1 := m.awoken[0], m.(awoken := m.awoken[1..]);
    assert ExitingSet(m1) == ExitingSet(m);
    if v in m.states {
      match m.states[v] {
        case Placeholder =>
        case AwaitingTerm(p, owner) => TermTurnShrinks(m1, v, p, owner, c);
        case AwaitingStatusChange(p, target, flags, tag) =>
          var m0 := SetState(m1, v, Placeholder);
          WaitTurnShrinks(m0, p, target, flags, v, c);
          var m2 := Waitpid(m0, p, target, flags, v, c).0;
          assert ExitingSet(m0) == ExitingSet(m1);
          assert ExitingSet(SetState(m2, v, m.states[v])) == ExitingSet(m2);
      }
    }
  }
}
