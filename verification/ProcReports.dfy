/** What a change of state does to the people waiting for it. */
module ProcReports {
  import opened Wrappers
  import opened ProcTable

  /** Waiters are left parked or moved to the wake-up queue, process by process; none is lost. */
  ghost predicate Drains(m: Mgr, m': Mgr)
  {
    && m'.processes.Keys == m.processes.Keys && m.awoken <= m'.awoken
    && forall q :: q in m.processes ==>
         || m'.processes[q].waiting == m.processes[q].waiting
         || (m'.processes[q].waiting == [] && forall v :: v in m.processes[q].waiting ==> v in m'.awoken)
  }

  lemma DrainsTransitive(a: Mgr, b: Mgr, c: Mgr)
    requires Drains(a, b) && Drains(b, c)
    ensures Drains(a, c)
  {
  }

  lemma WakeWaitersDrains(m: Mgr, p: Pid)
    requires p in m.processes
    ensures Drains(m, WakeWaiters(m, p))
  {
  }

  /** Filing a wait status puts it where the parent looks and wakes everyone waiting there. */
  lemma FilingWakes(m: Mgr, parent: Pid, child: Pid, pgid: Pid, e: Event)
    requires parent in m.processes
    ensures var m' := FileEvent(m, parent, child, pgid, e);
            && Drains(m, m') && m'.processes[parent].waiting == []
            && child in m'.processes[parent].waitpid && m'.processes[parent].waitpid[child].event == e
            && (forall v :: v in m.processes[parent].waiting ==> v in m'.awoken)
  {
  }

  lemma ChangeRunStateDrains(m: Mgr, p: Pid, status: Status, event: Event)
    requires p in m.processes
    ensures Drains(m, ChangeRunState(m, p, status, event).0)
  {
    var proc := m.processes[p];
    var m1 := Put(m, p, proc.(status := status));
    assert Drains(m, m1);
    if proc.ppid in m1.processes {
      FilingWakes(m1, proc.ppid, p, proc.pgid, event);
      DrainsTransitive(m, m1, FileEvent(m1, proc.ppid, p, proc.pgid, event));
    }
  }

  lemma SendSigDrains(m: Mgr, caller: Pid, target: Pid, sig: nat, c: Choice)
    ensures Drains(m, SendSig(m, caller, target, sig, c).0)
  {
    match SigEffect(m, caller, target, sig, c) {
      case Continues => ChangeRunStateDrains(m, target, PossiblyRunnable, Continued);
      case Stops => ChangeRunStateDrains(m, target, Stopped(sig), StoppedBy(sig));
      case _ =>
    }
  }

  lemma {:induction false} ContinueMembersDrains(m: Mgr, members: seq<Pid>, c: Choice)
    ensures Drains(m, ContinueMembers(m, members, c))
    decreases |members|
  {
    if members != [] {
      var p := members[0];
      var m1 := m;
      if p in m.processes && m.processes[p].status.Stopped? {
        var m0 := SendSig(m, INIT, p, SIGCONT, c).0;
        m1 := SendSig(m0, INIT, p, SIGHUP, c).0;
        SendSigDrains(m, INIT, p, SIGCONT, c);
        SendSigDrains(m0, INIT, p, SIGHUP, c);
        DrainsTransitive(m, m0, m1);
      }
      ContinueMembersDrains(m1, members[1..], c);
      DrainsTransitive(m, m1, ContinueMembers(m, members, c));
    }
  }

  lemma {:induction false} ContinueOrphansDrains(m: Mgr, before: Mgr, affected: set<Pid>, order: seq<Pid>, c: Choice)
    ensures Drains(m, ContinueOrphans(m, before, affected, order, c))
    decreases |order|
  {
    if order != [] {
      var g := order[0];
      var m1 := m;
      if g in affected && Orphaned(before, g) != Some(true) && Orphaned(m, g) == Some(true) {
        m1 := ContinueMembers(m, m.groups[g], c);
        ContinueMembersDrains(m, m.groups[g], c);
      }
      ContinueOrphansDrains(m1, before, affected, order[1..], c);
      DrainsTransitive(m, m1, ContinueOrphans(m, before, affected, order, c));
    }
  }

  lemma {:induction false} ReparentDrains(m: Mgr, kids: seq<Pid>)
    requires INIT in m.processes
    requires forall k :: k in kids ==> k in m.processes && k != INIT
    ensures Drains(m, Reparent(m, kids))
    decreases |kids|
  {
    if kids != [] {
      var m1 := ReparentOne(m, kids[0]);
      assert Drains(m, m1);
      ReparentDrains(m1, kids[1..]);
      DrainsTransitive(m, m1, Reparent(m, kids));
    }
  }

  lemma OrphanStepDrains(m: Mgr, p: Pid, pgid: Pid, c: Choice)
    requires INIT in m.processes
    ensures Drains(m, OrphanStep(m, p, pgid, c))
  {
    var m1 := WakeWaiters(m, INIT);
    var kids := ChildrenOf(m1, p, c.procs);
    var m2 := Reparent(m1, kids);
    WakeWaitersDrains(m, INIT);
    ReparentDrains(m1, kids);
    ContinueOrphansDrains(m2, m1, AffectedGroups(m1, kids, pgid), c.groups, c);
    DrainsTransitive(m, m1, m2);
    DrainsTransitive(m, m2, OrphanStep(m, p, pgid, c));
  }

  /** When an exit completes with the parent present, the parent finds the termination with the
      signal and status of the exit, everyone who was waiting in the parent is on the wake-up
      queue, and nobody else's wait is lost. */
  lemma ExitIsReported(m: Mgr, p: Pid, how: Exit, c: Choice)
    requires p in m.processes && m.processes[p].status == Exiting(how) && m.processes[p].ppid in m.processes
    ensures var m' := FinishExit(m, p, how, c);
            var parent := m.processes[p].ppid;
            && Drains(m, m') && m'.processes[parent].waiting == []
            && p in m'.processes[parent].waitpid && m'.processes[parent].waitpid[p].event == Terminated(how)
            && (forall v :: v in m.processes[parent].waiting ==> v in m'.awoken)
  {
    var proc := m.processes[p];
    var m1 := Put(m, p, proc.(status := Exited(how)));
    var m2 := if INIT in m1.processes then OrphanStep(m1, p, proc.pgid, c) else m1;
    assert Drains(m, m1);
    if INIT in m1.processes { OrphanStepDrains(m1, p, proc.pgid, c); }
    DrainsTransitive(m, m1, m2);
    FilingWakes(m2, proc.ppid, p, proc.pgid, Terminated(how));
    DrainsTransitive(m, m2, FinishExit(m, p, how, c));
  }

  /** The signals that stop or continue a process that has a signal page and is not ending. */
  ghost predicate StopsOnDelivery(m: Mgr, target: Pid, sig: nat, c: Choice)
    requires target in m.processes
  {
    sig == SIGSTOP || (IsTerminalStop(sig) && target in c.stops && Orphaned(m, m.processes[target].pgid) == Some(false))
  }

  ghost predicate Reached(m: Mgr, caller: Pid, target: Pid, sig: nat)
  {
    && target in m.processes && caller in m.processes && 1 <= sig <= 64
    && MaySignal(m.processes[caller].creds, m.processes[target].creds)
    && !Ending(m.processes[target].status) && m.processes[target].hasPctl
  }

  lemma ChangeRunStateStatus(m: Mgr, p: Pid, status: Status, event: Event, q: Pid)
    requires p in m.processes && q in m.processes
    ensures ChangeRunState(m, p, status, event).0.processes[q].status
            == if q == p then status else m.processes[q].status
  {
  }

  /** A signal changes at most its target's run state: to stopped exactly for a permitted stop
      signal (a terminal one only outside orphaned groups, as POSIX.1-2017 requires), to runnable
      exactly when it continues a stopped process. */
  lemma SignalsChangeExactly(m: Mgr, caller: Pid, target: Pid, sig: nat, c: Choice, q: Pid)
    requires q in m.processes
    ensures var m' := SendSig(m, caller, target, sig, c).0;
            m'.processes[q].status ==
              if q == target && Reached(m, caller, target, sig) && sig == SIGCONT && m.processes[q].status.Stopped?
              then PossiblyRunnable
              else if q == target && Reached(m, caller, target, sig) && StopsOnDelivery(m, target, sig, c)
              then Stopped(sig)
              else m.processes[q].status
  {
    match SigEffect(m, caller, target, sig, c) {
      case Continues => ChangeRunStateStatus(m, target, PossiblyRunnable, Continued, q);
      case Stops => ChangeRunStateStatus(m, target, Stopped(sig), StoppedBy(sig), q);
      case _ =>
    }
  }
}
