/** Orphaned process groups: an exit continues the stopped members of the groups it orphans, of
    those that init may signal, and hands the children over to init. */
module ProcOrphans {
  import opened Wrappers
  import opened ProcTable
  import opened ProcInvariants
  import opened ProcExit

  /** What sending SIGCONT and SIGHUP to a process may change. */
  ghost predicate SoothedProc(a: Process, b: Process)
  {
    && b == a.(status := b.status, waitpid := b.waitpid, waiting := b.waiting)
    && (b.status.Stopped? ==> a.status.Stopped?)
  }

  ghost predicate Soothed(m: Mgr, m': Mgr)
  {
    && m'.groups == m.groups && m'.processes.Keys == m.processes.Keys
    && forall p :: p in m.processes ==> SoothedProc(m.processes[p], m'.processes[p])
  }

  /** init is there and has the right to signal `p`. */
  ghost predicate InitMaySignal(m: Mgr, p: Pid)
  {
    && INIT in m.processes && p in m.processes
    && MaySignal(m.processes[INIT].creds, m.processes[p].creds)
  }

  /** `m'` has the stopped processes of `m`, less those of `gone` that init may signal. */
  ghost predicate StoppedExcept(m: Mgr, m': Mgr, gone: set<Pid>)
  {
    forall p :: p in m.processes && p in m'.processes ==>
      (m'.processes[p].status.Stopped? <==> m.processes[p].status.Stopped? && !(p in gone && InitMaySignal(m, p)))
  }

  ghost predicate StoppedHavePages(m: Mgr)
  {
    forall p :: p in m.processes && m.processes[p].status.Stopped? ==> m.processes[p].hasPctl
  }

  lemma SoothedTransitive(a: Mgr, b: Mgr, c: Mgr)
    requires Soothed(a, b) && Soothed(b, c)
    ensures Soothed(a, c)
  {
    forall p | p in a.processes ensures SoothedProc(a.processes[p], c.processes[p]) {
      assert SoothedProc(a.processes[p], b.processes[p]) && SoothedProc(b.processes[p], c.processes[p]);
    }
  }

  lemma SoothedPages(m: Mgr, m': Mgr)
    requires StoppedHavePages(m) && Soothed(m, m')
    ensures StoppedHavePages(m') && forall p :: InitMaySignal(m', p) == InitMaySignal(m, p)
  {
    forall p | p in m.processes ensures SoothedProc(m.processes[p], m'.processes[p]) {}
  }

  lemma FileEventSoothes(m: Mgr, parent: Pid, p: Pid, pgid: Pid, e: Event)
    requires parent in m.processes
    ensures Soothed(m, FileEvent(m, parent, p, pgid, e))
    ensures StoppedExcept(m, FileEvent(m, parent, p, pgid, e), {})
  {
    FileEventShape(m, parent, p, pgid, e);
  }

  lemma ContinueSoothes(m: Mgr, p: Pid)
    requires InitMaySignal(m, p) && m.processes[p].status.Stopped?
    ensures var m' := ChangeRunState(m, p, PossiblyRunnable, Continued).0;
            Soothed(m, m') && StoppedExcept(m, m', {p})
  {
    var proc := m.processes[p];
    var m1 := Put(m, p, proc.(status := PossiblyRunnable));
    assert Soothed(m, m1) && StoppedExcept(m, m1, {p});
    if proc.ppid in m1.processes {
      FileEventSoothes(m1, proc.ppid, p, proc.pgid, Continued);
      SoothedTransitive(m, m1, FileEvent(m1, proc.ppid, p, proc.pgid, Continued));
    }
  }

  /** SIGCONT from init continues exactly its stopped target, if init may signal it. */
  lemma SigcontSoothes(m: Mgr, p: Pid, c: Choice)
    requires StoppedHavePages(m) && p in m.processes && m.processes[p].status.Stopped?
    ensures var m' := SendSig(m, INIT, p, SIGCONT, c).0;
            Soothed(m, m') && StoppedExcept(m, m', {p})
  {
    if InitMaySignal(m, p) { ContinueSoothes(m, p); }
  }

  lemma SighupHarmless(m: Mgr, p: Pid, c: Choice)
    ensures SendSig(m, INIT, p, SIGHUP, c).0 == m
  {
  }

  lemma {:induction false} ContinueMembersSoothes(m: Mgr, members: seq<Pid>, c: Choice)
    requires StoppedHavePages(m)
    ensures var m' := ContinueMembers(m, members, c);
            Soothed(m, m') && StoppedExcept(m, m', Elements(members))
    decreases |members|
  {
    if members != [] {
      var p := members[0];
      ElementsSplit(members);
      var m1 := if p in m.processes && m.processes[p].status.Stopped?
                then SendSig(SendSig(m, INIT, p, SIGCONT, c).0, INIT, p, SIGHUP, c).0 else m;
      if p in m.processes && m.processes[p].status.Stopped? {
        SigcontSoothes(m, p, c);
        SighupHarmless(SendSig(m, INIT, p, SIGCONT, c).0, p, c);
      }
      SoothedPages(m, m1);
      ContinueMembersSoothes(m1, members[1..], c);
      SoothedTransitive(m, m1, ContinueMembers(m1, members[1..], c));
    }
  }

  ghost predicate SameLinks(m: Mgr, m': Mgr)
  {
    && m'.groups == m.groups && m'.processes.Keys == m.processes.Keys
    && forall p :: p in m.processes ==>
         && m'.processes[p].ppid == m.processes[p].ppid
         && m'.processes[p].pgid == m.processes[p].pgid && m'.processes[p].sid == m.processes[p].sid
         && m'.processes[p].creds == m.processes[p].creds
  }

  lemma OrphanedDependsOnLinks(m: Mgr, m': Mgr, g: Pid)
    requires SameLinks(m, m')
    ensures Orphaned(m', g) == Orphaned(m, g)
  {
    if g in m.groups {
      forall p | p in m.groups[g] && p in m.processes ensures OrphanVote(m', p) == OrphanVote(m, p) {}
    }
  }

  lemma SoothedLinks(m: Mgr, m': Mgr)
    requires Soothed(m, m')
    ensures SameLinks(m, m')
  {
    forall p | p in m.processes ensures SoothedProc(m.processes[p], m'.processes[p]) {}
  }

  ghost predicate NewlyOrphaned(before: Mgr, after: Mgr, g: Pid)
  {
    Orphaned(before, g) != Some(true) && Orphaned(after, g) == Some(true)
  }

  /** The processes of the affected, newly orphaned groups listed in `order`. */
  ghost function Rescued(m: Mgr, before: Mgr, affected: set<Pid>, order: seq<Pid>): (r: set<Pid>)
  {
    set p | p in m.processes && m.processes[p].pgid in order && m.processes[p].pgid in affected
            && NewlyOrphaned(before, m, m.processes[p].pgid)
  }

  lemma SoothedCoherent(m: Mgr, m': Mgr)
    requires GroupsListMembers(m) && MembersAreListed(m) && Soothed(m, m')
    ensures GroupsListMembers(m') && MembersAreListed(m')
  {
    SoothedLinks(m, m');
  }

  lemma RescuedStep(m: Mgr, m1: Mgr, before: Mgr, affected: set<Pid>, order: seq<Pid>)
    requires Soothed(m, m1) && order != []
    ensures Rescued(m1, before, affected, order[1..]) == Rescued(m, before, affected, order[1..])
  {
    SoothedLinks(m, m1);
    forall g ensures Orphaned(m1, g) == Orphaned(m, g) { OrphanedDependsOnLinks(m, m1, g); }
  }

  /** The members of one group are exactly the processes with its pgid. */
  lemma RescuedSplit(m: Mgr, before: Mgr, affected: set<Pid>, order: seq<Pid>)
    requires GroupsListMembers(m) && MembersAreListed(m) && order != []
    ensures var g := order[0];
            var here := if g in affected && NewlyOrphaned(before, m, g) then Elements(m.groups[g]) else {};
            Rescued(m, before, affected, order) == here + Rescued(m, before, affected, order[1..])
  {
  }

  lemma {:induction false} ContinueOrphansSoothes(m: Mgr, before: Mgr, affected: set<Pid>, order: seq<Pid>, c: Choice)
    requires StoppedHavePages(m) && GroupsListMembers(m) && MembersAreListed(m)
    ensures var m' := ContinueOrphans(m, before, affected, order, c);
            Soothed(m, m') && StoppedExcept(m, m', Rescued(m, before, affected, order))
    decreases |order|
  {
    if order != [] {
      var g := order[0];
      var m1 := if g in affected && Orphaned(before, g) != Some(true) && Orphaned(m, g) == Some(true)
                then ContinueMembers(m, m.groups[g], c) else m;
      if g in affected && NewlyOrphaned(before, m, g) { ContinueMembersSoothes(m, m.groups[g], c); }
      SoothedPages(m, m1);
      SoothedCoherent(m, m1);
      ContinueOrphansSoothes(m1, before, affected, order[1..], c);
      SoothedTransitive(m, m1, ContinueOrphans(m1, before, affected, order[1..], c));
      RescuedStep(m, m1, before, affected, order);
      RescuedSplit(m, before, affected, order);
    }
  }

  /** A group none of whose members was reparented does not change its orphan status. */
  lemma UnaffectedGroup(m: Mgr, m': Mgr, kids: seq<Pid>, pgid: Pid, g: Pid)
    requires GroupsListMembers(m) && Reparented(m, m', Elements(kids))
    requires forall k :: k in kids ==> k in m.processes
    requires g !in AffectedGroups(m, kids, pgid)
    ensures Orphaned(m', g) == Orphaned(m, g)
  {
    assert forall k :: k in kids ==> m.processes[k].pgid in AffectedGroups(m, kids, pgid);
    if g in m.groups {
      forall p | p in m.groups[g] && p in m.processes ensures OrphanVote(m', p) == OrphanVote(m, p) {}
    }
  }

  lemma ReparentedTable(m: Mgr, m': Mgr, kids: set<Pid>)
    requires GroupsListMembers(m) && MembersAreListed(m) && StoppedHavePages(m) && Reparented(m, m', kids)
    ensures GroupsListMembers(m') && MembersAreListed(m') && StoppedHavePages(m')
    ensures StoppedExcept(m, m', {}) && forall p :: InitMaySignal(m', p) == InitMaySignal(m, p)
    ensures forall p :: p in m.processes ==> m'.processes[p].pgid == m.processes[p].pgid
  {
  }

  /** The first half of an exit: marking the process and waking init's waiters. */
  lemma ExitPrelude(m: Mgr, p: Pid, how: Exit)
    requires Coherent(m) && StoppedHavePages(m) && INIT in m.processes
    requires p in m.processes && m.processes[p].status == Exiting(how)
    ensures var m1 := WakeWaiters(Put(m, p, m.processes[p].(status := Exited(how))), INIT);
            && SameLinks(m, m1) && StoppedExcept(m, m1, {}) && StoppedHavePages(m1)
            && GroupsListMembers(m1) && MembersAreListed(m1)
  {
    var m0 := Put(m, p, m.processes[p].(status := Exited(how)));
    MarkingKeepsLinks(m, p, how);
    assert StoppedHavePages(m0);
    WakingSoothes(m0, INIT);
    SoothedPages(m0, WakeWaiters(m0, INIT));
    SoothingKeepsLinks(m, m0, WakeWaiters(m0, INIT));
    SameLinksListed(m, WakeWaiters(m0, INIT));
  }

  lemma WakingSoothes(m: Mgr, p: Pid)
    requires p in m.processes
    ensures Soothed(m, WakeWaiters(m, p)) && StoppedExcept(m, WakeWaiters(m, p), {})
  {
  }

  lemma SameLinksListed(m: Mgr, m': Mgr)
    requires GroupsListMembers(m) && MembersAreListed(m) && SameLinks(m, m')
    ensures GroupsListMembers(m') && MembersAreListed(m')
  {
  }

  /** A process stays stopped exactly if its group was not newly orphaned or init may not signal it. */
  ghost predicate ContinuesNewOrphans(m: Mgr, m': Mgr)
  {
    && m'.groups == m.groups && m'.processes.Keys == m.processes.Keys
    && forall q :: q in m.processes ==>
         && m'.processes[q].pgid == m.processes[q].pgid
         && (m'.processes[q].status.Stopped? <==>
             && m.processes[q].status.Stopped?
             && !(NewlyOrphaned(m, m', m.processes[q].pgid) && InitMaySignal(m, q)))
  }

  lemma OrphanStepContinues(m: Mgr, p: Pid, pgid: Pid, c: Choice)
    requires INIT in m.processes
    requires GroupsListMembers(WakeWaiters(m, INIT)) && MembersAreListed(WakeWaiters(m, INIT))
    requires StoppedHavePages(WakeWaiters(m, INIT)) && Enumerates(c.groups, m.groups.Keys)
    ensures ContinuesNewOrphans(WakeWaiters(m, INIT), OrphanStep(m, p, pgid, c))
  {
    var m1 := WakeWaiters(m, INIT);
    var kids := ChildrenOf(m1, p, c.procs);
    var m2 := Reparent(m1, kids);
    var affected := AffectedGroups(m1, kids, pgid);
    var m' := ContinueOrphans(m2, m1, affected, c.groups, c);
    ReparentSpec(m1, kids);
    ReparentedTable(m1, m2, Elements(kids));
    ContinueOrphansSoothes(m2, m1, affected, c.groups, c);
    SoothedLinks(m2, m');
    forall q | q in m1.processes
      ensures q in Rescued(m2, m1, affected, c.groups) <==> NewlyOrphaned(m1, m', m1.processes[q].pgid)
    {
      var g := m1.processes[q].pgid;
      OrphanedDependsOnLinks(m2, m', g);
      if g !in affected { UnaffectedGroup(m1, m2, kids, pgid, g); }
    }
  }

  lemma ContinuesCompose(m: Mgr, m1: Mgr, m2: Mgr, m': Mgr)
    requires SameLinks(m, m1) && StoppedExcept(m, m1, {})
    requires ContinuesNewOrphans(m1, m2)
    requires SameLinks(m2, m') && StoppedExcept(m2, m', {})
    ensures ContinuesNewOrphans(m, m')
  {
    forall g ensures Orphaned(m, g) == Orphaned(m1, g) && Orphaned(m', g) == Orphaned(m2, g) {
      OrphanedDependsOnLinks(m, m1, g);
      OrphanedDependsOnLinks(m2, m', g);
    }
  }

  /** Where nothing is reparented, no group is newly orphaned. */
  lemma SameLinksOrphanNothing(m: Mgr, m': Mgr)
    requires SameLinks(m, m') && StoppedExcept(m, m', {})
    ensures ContinuesNewOrphans(m, m')
  {
    forall g ensures Orphaned(m', g) == Orphaned(m, g) { OrphanedDependsOnLinks(m, m', g); }
  }

  lemma ExitWithInitContinues(m: Mgr, p: Pid, how: Exit, c: Choice)
    requires Coherent(m) && StoppedHavePages(m) && ValidChoice(m, c) && INIT in m.processes
    requires p in m.processes && m.processes[p].status == Exiting(how) && m.processes[p].ppid in m.processes
    ensures ContinuesNewOrphans(m, FinishExit(m, p, how, c))
  {
    var proc := m.processes[p];
    var m0 := Put(m, p, proc.(status := Exited(how)));
    var m2, m' := OrphanStep(m0, p, proc.pgid, c), FinishExit(m, p, how, c);
    ExitPrelude(m, p, how);
    OrphanStepContinues(m0, p, proc.pgid, c);
    FileEventSoothes(m2, proc.ppid, p, proc.pgid, Terminated(how));
    SoothedLinks(m2, m');
    ContinuesCompose(m, WakeWaiters(m0, INIT), m2, m');
  }

  lemma MarkingKeepsLinks(m: Mgr, p: Pid, how: Exit)
    requires p in m.processes && m.processes[p].status == Exiting(how)
    ensures var m0 := Put(m, p, m.processes[p].(status := Exited(how)));
            SameLinks(m, m0) && StoppedExcept(m, m0, {})
  {
  }

  lemma SoothingKeepsLinks(m: Mgr, m0: Mgr, m': Mgr)
    requires SameLinks(m, m0) && StoppedExcept(m, m0, {}) && Soothed(m0, m') && StoppedExcept(m0, m', {})
    ensures SameLinks(m, m') && StoppedExcept(m, m', {})
  {
    SoothedLinks(m0, m');
  }

  /** Without a parent or without init nothing is reparented. */
  lemma ExitElseKeepsLinks(m: Mgr, p: Pid, how: Exit, c: Choice)
    requires p in m.processes && m.processes[p].status == Exiting(how)
    requires m.processes[p].ppid !in m.processes || INIT !in m.processes
    ensures SameLinks(m, FinishExit(m, p, how, c)) && StoppedExcept(m, FinishExit(m, p, how, c), {})
  {
    var proc := m.processes[p];
    var m0 := Put(m, p, proc.(status := Exited(how)));
    MarkingKeepsLinks(m, p, how);
    if proc.ppid in m.processes {
      FileEventSoothes(m0, proc.ppid, p, proc.pgid, Terminated(how));
      SoothingKeepsLinks(m, m0, FinishExit(m, p, how, c));
    }
  }

  /** When the last thread of an exiting process is gone: exactly the stopped members of the
      groups that became orphaned are continued (POSIX.1-2017 `_exit`, "Consequences of Process
      Termination"), of those that init may signal. */
  lemma ExitContinuesExactlyNewOrphans(m: Mgr, p: Pid, how: Exit, c: Choice)
    requires Coherent(m) && StoppedHavePages(m) && ValidChoice(m, c)
    requires p in m.processes && m.processes[p].status == Exiting(how)
    ensures ContinuesNewOrphans(m, FinishExit(m, p, how, c))
  {
    if m.processes[p].ppid in m.processes && INIT in m.processes {
      ExitWithInitContinues(m, p, how, c);
    } else {
      ExitElseKeepsLinks(m, p, how, c);
      SameLinksOrphanNothing(m, FinishExit(m, p, how, c));
    }
  }

  // ---------------------------------------------------------------- adoption

  /** Exactly the children of `p` have become children of init. */
  ghost predicate Adopted(m: Mgr, m': Mgr, p: Pid)
  {
    && m'.groups == m.groups && m'.processes.Keys == m.processes.Keys
    && forall q :: q in m.processes ==>
         && m'.processes[q].ppid == (if m.processes[q].ppid == p && q != INIT then INIT else m.processes[q].ppid)
         && m'.processes[q].pgid == m.processes[q].pgid && m'.processes[q].sid == m.processes[q].sid
         && m'.processes[q].creds == m.processes[q].creds
  }

  lemma AdoptedLinks(m: Mgr, m1: Mgr, m2: Mgr, m': Mgr, p: Pid)
    requires SameLinks(m, m1) && Adopted(m1, m2, p) && SameLinks(m2, m')
    ensures Adopted(m, m', p)
  {
  }

  lemma ReparentAdopts(m: Mgr, p: Pid, order: seq<Pid>)
    requires INIT in m.processes && Enumerates(order, m.processes.Keys)
    ensures Adopted(m, Reparent(m, ChildrenOf(m, p, order)), p)
  {
    ReparentSpec(m, ChildrenOf(m, p, order));
  }

  lemma OrphanStepAdopts(m: Mgr, p: Pid, pgid: Pid, c: Choice)
    requires INIT in m.processes && ValidChoice(m, c)
    requires GroupsListMembers(WakeWaiters(m, INIT)) && MembersAreListed(WakeWaiters(m, INIT))
    requires StoppedHavePages(WakeWaiters(m, INIT))
    ensures Adopted(WakeWaiters(m, INIT), OrphanStep(m, p, pgid, c), p)
  {
    var m1 := WakeWaiters(m, INIT);
    var kids := ChildrenOf(m1, p, c.procs);
    var m2 := Reparent(m1, kids);
    ReparentSpec(m1, kids);
    ReparentedTable(m1, m2, Elements(kids));
    ReparentAdopts(m1, p, c.procs);
    ContinueOrphansSoothes(m2, m1, AffectedGroups(m1, kids, pgid), c.groups, c);
    SoothedLinks(m2, OrphanStep(m, p, pgid, c));
  }

  /** A completed exit hands exactly the children over to init, if init and the parent are there;
      otherwise every process keeps its parent. */
  lemma ExitAdopts(m: Mgr, p: Pid, how: Exit, c: Choice)
    requires Coherent(m) && StoppedHavePages(m) && ValidChoice(m, c)
    requires p in m.processes && m.processes[p].status == Exiting(how)
    ensures var m' := FinishExit(m, p, how, c);
            if m.processes[p].ppid in m.processes && INIT in m.processes then Adopted(m, m', p) else SameLinks(m, m')
  {
    var proc := m.processes[p];
    if proc.ppid in m.processes && INIT in m.processes {
      var m0 := Put(m, p, proc.(status := Exited(how)));
      var m2 := OrphanStep(m0, p, proc.pgid, c);
      ExitPrelude(m, p, how);
      OrphanStepAdopts(m0, p, proc.pgid, c);
      FileEventSoothes(m2, proc.ppid, p, proc.pgid, Terminated(how));
      SoothedLinks(m2, FinishExit(m, p, how, c));
      AdoptedLinks(m, WakeWaiters(m0, INIT), m2, FinishExit(m, p, how, c), p);
    } else {
      ExitElseKeepsLinks(m, p, how, c);
    }
  }
}
