/** Every wait status is the record of something that happened: each one a process holds, and
    each one a wait reports, goes back to the step of the run that caused it. */
module ProcHistory {
  import opened Wrappers
  import opened ProcTable
  import opened ProcInvariants
  import opened ProcExit
  import opened ProcRuns
  import opened ProcTheorems
  import opened ProcOrphans

  /** Between `a` and `b` the event `e` happened to process `w`. */
  ghost predicate Happened(a: Records, b: Records, w: Pid, e: Event)
  {
    && w in a && w in b
    && match e
       case Continued => a[w].status.Stopped? && b[w].status.PossiblyRunnable?
       case StoppedBy(sig) => !Ending(a[w].status) && b[w].status == Stopped(sig)
       case Terminated(how) => !a[w].status.Exited? && b[w].status == Exited(how)
  }

  ghost predicate NewcomersRun(a: Records, b: Records)
  {
    forall q :: q in b && q !in a ==> b[q].status.PossiblyRunnable?
  }

  /** Whatever is filed in `b` was filed in `a` or happened in between. */
  ghost predicate Sourced(a: Records, b: Records)
  {
    && NewcomersRun(a, b)
    && forall w, e :: Filed(b, w, e) ==> Filed(a, w, e) || Happened(a, b, w, e)
  }

  ghost predicate NoNews(a: Records, b: Records)
  {
    forall w, e :: Filed(b, w, e) ==> Filed(a, w, e)
  }

  /** Wait statuses are at most removed, and new processes have none. */
  ghost predicate OnlyTaken(a: Records, b: Records)
  {
    forall q :: q in b ==>
      if q in a
      then forall w :: w in b[q].waitpid ==> w in a[q].waitpid && b[q].waitpid[w] == a[q].waitpid[w]
      else b[q].waitpid == map[] && b[q].status.PossiblyRunnable?
  }

  lemma OnlyTakenNoNews(a: Records, b: Records)
    requires OnlyTaken(a, b)
    ensures NoNews(a, b) && Sourced(a, b)
  {
    forall w, e | Filed(b, w, e) ensures Filed(a, w, e) {
      var q :| q in b && w in b[q].waitpid && b[q].waitpid[w].event == e;
      assert q in a && w in a[q].waitpid;
    }
  }

  // ---------------------------------------------------------------- signals

  function EventOf(sig: nat): (e: Event)
  {
    if sig == SIGCONT then Continued else StoppedBy(sig)
  }

  /** What `sig` may do to the status of a process. */
  ghost predicate Moved(sig: nat, a: Status, b: Status)
  {
    || b == a
    || (if sig == SIGCONT then a.Stopped? && b.PossiblyRunnable? else !Ending(a) && b == Stopped(sig))
  }

  /** Any number of deliveries of the one signal `sig`. */
  ghost predicate Signalled(sig: nat, a: Records, b: Records)
  {
    && b.Keys == a.Keys
    && (forall q :: q in a ==> Moved(sig, a[q].status, b[q].status))
    && (forall w, e :: Filed(b, w, e) ==> Filed(a, w, e) || (e == EventOf(sig) && Happened(a, b, w, e)))
  }

  lemma SignalledTransitive(sig: nat, a: Records, b: Records, c: Records)
    requires Signalled(sig, a, b) && Signalled(sig, b, c)
    ensures Signalled(sig, a, c)
  {
    forall w, e | Filed(c, w, e) && !Filed(a, w, e) ensures e == EventOf(sig) && Happened(a, c, w, e) {
      assert Filed(b, w, e) ==> Happened(a, b, w, e);
      assert w in a ==> Moved(sig, a[w].status, b[w].status) && Moved(sig, b[w].status, c[w].status);
    }
  }

  lemma SignalledNothing(sig: nat, a: Records)
    ensures Signalled(sig, a, a)
  {
  }

  /** Filing adds one event and nothing else. */
  lemma FileEventFiles(m: Mgr, parent: Pid, p: Pid, pgid: Pid, e: Event)
    requires parent in m.processes
    ensures var m' := FileEvent(m, parent, p, pgid, e);
            && (forall q :: q in m.processes ==> m'.processes[q].status == m.processes[q].status)
            && (forall w, x :: Filed(m'.processes, w, x) ==> Filed(m.processes, w, x) || (w == p && x == e))
  {
    var m' := FileEvent(m, parent, p, pgid, e);
    FileEventShape(m, parent, p, pgid, e);
    forall w, x | Filed(m'.processes, w, x) && !(w == p && x == e) ensures Filed(m.processes, w, x) {
      var q :| q in m'.processes && w in m'.processes[q].waitpid && m'.processes[q].waitpid[w].event == x;
      assert w in m.processes[q].waitpid && m.processes[q].waitpid[w].event == x;
    }
  }

  lemma StatusAlone(m: Mgr, p: Pid, status: Status)
    requires p in m.processes
    ensures NoNews(m.processes, Put(m, p, m.processes[p].(status := status)).processes)
  {
    OnlyTakenNoNews(m.processes, Put(m, p, m.processes[p].(status := status)).processes);
  }

  lemma ChangeRunStateSignalled(m: Mgr, p: Pid, sig: nat, status: Status)
    requires p in m.processes && Moved(sig, m.processes[p].status, status)
    requires Happened(m.processes, m.processes[p := m.processes[p].(status := status)], p, EventOf(sig))
    ensures Signalled(sig, m.processes, ChangeRunState(m, p, status, EventOf(sig)).0.processes)
  {
    var proc := m.processes[p];
    var m1 := Put(m, p, proc.(status := status));
    StatusAlone(m, p, status);
    if proc.ppid in m1.processes { FileEventFiles(m1, proc.ppid, p, proc.pgid, EventOf(sig)); }
  }

  lemma SendSigSignalled(m: Mgr, caller: Pid, target: Pid, sig: nat, c: Choice)
    ensures Signalled(sig, m.processes, SendSig(m, caller, target, sig, c).0.processes)
  {
    match SigEffect(m, caller, target, sig, c) {
      case Continues => ChangeRunStateSignalled(m, target, sig, PossiblyRunnable);
      case Stops => ChangeRunStateSignalled(m, target, sig, Stopped(sig));
      case _ => SignalledNothing(sig, m.processes);
    }
  }

  lemma {:induction false} SendManySignalled(m: Mgr, caller: Pid, group: Option<Pid>, sig: nat, order: seq<Pid>,
                                             c: Choice)
    ensures Signalled(sig, m.processes, SendMany(m, caller, group, sig, order, c).processes)
    decreases |order|
  {
    SignalledNothing(sig, m.processes);
    if order != [] {
      var p := order[0];
      var m1 := if p in m.processes && (group.None? || m.processes[p].pgid == group.value)
                then SendSig(m, caller, p, sig, c).0 else m;
      SendSigSignalled(m, caller, p, sig, c);
      SendManySignalled(m1, caller, group, sig, order[1..], c);
      SignalledTransitive(sig, m.processes, m1.processes, SendMany(m1, caller, group, sig, order[1..], c).processes);
    }
  }

  lemma KillSourced(m: Mgr, caller: Pid, target: KillTarget, sig: nat, c: Choice)
    ensures Sourced(m.processes, Kill(m, caller, target, sig, c).processes)
  {
    match target {
      case KillOne(p) => SendSigSignalled(m, caller, p, sig, c);
      case KillAll => SendManySignalled(m, caller, None, sig, c.procs, c);
      case KillGroup(g) => SendManySignalled(m, caller, Some(g), sig, c.procs, c);
      case KillOwnGroup =>
        if caller in m.processes { SendManySignalled(m, caller, Some(m.processes[caller].pgid), sig, c.procs, c); }
    }
  }

  // ---------------------------------------------------------------- exits

  lemma {:induction false} ContinueMembersSignalled(m: Mgr, members: seq<Pid>, c: Choice)
    ensures Signalled(SIGCONT, m.processes, ContinueMembers(m, members, c).processes)
    decreases |members|
  {
    SignalledNothing(SIGCONT, m.processes);
    if members != [] {
      var p := members[0];
      var m1 := if p in m.processes && m.processes[p].status.Stopped?
                then SendSig(SendSig(m, INIT, p, SIGCONT, c).0, INIT, p, SIGHUP, c).0 else m;
      SendSigSignalled(m, INIT, p, SIGCONT, c);
      SighupHarmless(SendSig(m, INIT, p, SIGCONT, c).0, p, c);
      ContinueMembersSignalled(m1, members[1..], c);
      SignalledTransitive(SIGCONT, m.processes, m1.processes, ContinueMembers(m1, members[1..], c).processes);
    }
  }

  lemma {:induction false} ContinueOrphansSignalled(m: Mgr, before: Mgr, affected: set<Pid>, order: seq<Pid>, c: Choice)
    ensures Signalled(SIGCONT, m.processes, ContinueOrphans(m, before, affected, order, c).processes)
    decreases |order|
  {
    SignalledNothing(SIGCONT, m.processes);
    if order != [] {
      var g := order[0];
      var m1 := if g in affected && Orphaned(before, g) != Some(true) && Orphaned(m, g) == Some(true)
                then ContinueMembers(m, m.groups[g], c) else m;
      if g in m.groups { ContinueMembersSignalled(m, m.groups[g], c); }
      ContinueOrphansSignalled(m1, before, affected, order[1..], c);
      SignalledTransitive(SIGCONT, m.processes, m1.processes,
                          ContinueOrphans(m1, before, affected, order[1..], c).processes);
    }
  }

  lemma ReparentedNoNews(m: Mgr, m': Mgr, kids: set<Pid>)
    requires Reparented(m, m', kids)
    ensures NoNews(m.processes, m'.processes)
  {
    forall w, e | Filed(m'.processes, w, e) ensures Filed(m.processes, w, e) {
      var p :| p in m'.processes && w in m'.processes[p].waitpid && m'.processes[p].waitpid[w].event == e;
      assert EntryComesFrom(m, w, m'.processes[p].waitpid[w]);
    }
  }

  ghost predicate SameStatuses(a: Records, b: Records)
  {
    b.Keys == a.Keys && forall q :: q in a ==> b[q].status == a[q].status
  }

  lemma QuietThenSignalled(sig: nat, a: Records, b: Records, c: Records)
    requires NoNews(a, b) && SameStatuses(a, b) && Signalled(sig, b, c)
    ensures Signalled(sig, a, c)
  {
    forall w, e | Filed(c, w, e) && !Filed(a, w, e) ensures e == EventOf(sig) && Happened(a, c, w, e) {
      assert Happened(b, c, w, e);
    }
  }

  lemma OrphanStepSignalled(m: Mgr, p: Pid, pgid: Pid, c: Choice)
    requires INIT in m.processes
    ensures Signalled(SIGCONT, m.processes, OrphanStep(m, p, pgid, c).processes)
  {
    var m1 := WakeWaiters(m, INIT);
    var kids := ChildrenOf(m1, p, c.procs);
    var m2 := Reparent(m1, kids);
    OnlyTakenNoNews(m.processes, m1.processes);
    ReparentSpec(m1, kids);
    ReparentedNoNews(m1, m2, Elements(kids));
    ContinueOrphansSignalled(m2, m1, AffectedGroups(m1, kids, pgid), c.groups, c);
    QuietThenSignalled(SIGCONT, m.processes, m2.processes, OrphanStep(m, p, pgid, c).processes);
  }

  /** Marking `p` as ended, then continuing others, then filing the exit of `p`. */
  lemma ExitChain(a: Records, b: Records, c: Records, d: Records, p: Pid, how: Exit)
    requires p in a && a[p].status == Exiting(how) && b == a[p := a[p].(status := Exited(how))]
    requires Signalled(SIGCONT, b, c) && SameStatuses(c, d)
    requires forall w, e :: Filed(d, w, e) ==> Filed(c, w, e) || (w == p && e == Terminated(how))
    ensures Sourced(a, d)
  {
    OnlyTakenNoNews(a, b);
    forall w, e | Filed(d, w, e) && !Filed(a, w, e) ensures Happened(a, d, w, e) {
      assert Moved(SIGCONT, b[p].status, c[p].status);
      if Filed(c, w, e) { assert Happened(b, c, w, e); }
    }
  }

  lemma FinishExitSourced(m: Mgr, p: Pid, how: Exit, c: Choice)
    requires p in m.processes && m.processes[p].status == Exiting(how)
    ensures Sourced(m.processes, FinishExit(m, p, how, c).processes)
  {
    var proc := m.processes[p];
    var m1 := Put(m, p, proc.(status := Exited(how)));
    SignalledNothing(SIGCONT, m1.processes);
    if proc.ppid in m1.processes {
      var m2 := if INIT in m1.processes then OrphanStep(m1, p, proc.pgid, c) else m1;
      if INIT in m1.processes { OrphanStepSignalled(m1, p, proc.pgid, c); }
      FileEventFiles(m2, proc.ppid, p, proc.pgid, Terminated(how));
      ExitChain(m.processes, m1.processes, m2.processes, FinishExit(m, p, how, c).processes, p, how);
    } else {
      ExitChain(m.processes, m1.processes, m1.processes, m1.processes, p, how);
    }
  }

  lemma WorkOnTermSourced(m: Mgr, v: Vid, p: Pid, owner: Option<nat>, c: Choice)
    ensures Sourced(m.processes, WorkOnTerm(m, v, p, owner, c).0.processes)
  {
    WorkOnTermShape(m, v, p, owner, c);
    if p in m.processes && m.processes[p].threads == [] && m.processes[p].status.Exiting? {
      FinishExitSourced(DropState(m, v), p, m.processes[p].status.how, c);
    } else {
      OnlyTakenNoNews(m.processes, WorkOnTerm(m, v, p, owner, c).0.processes);
    }
  }

  /** A process may lose threads and start to exit before the rest of the step. */
  ghost predicate Starts(a: Records, b: Records)
  {
    && b.Keys == a.Keys
    && forall q :: q in a ==>
         && b[q].waitpid == a[q].waitpid
         && (b[q].status == a[q].status || (b[q].status.Exiting? && !Ending(a[q].status)))
  }

  lemma StartsThenSourced(a: Records, b: Records, c: Records)
    requires Starts(a, b) && Sourced(b, c)
    ensures Sourced(a, c)
  {
    OnlyTakenNoNews(a, b);
    forall w, e | Filed(c, w, e) && !Filed(a, w, e) ensures Happened(a, c, w, e) {
      assert Happened(b, c, w, e);
    }
  }

  lemma AcceptStarts(m: Mgr, p: Pid, how: Exit, v: Vid, owner: Option<nat>)
    requires p in m.processes && !Ending(m.processes[p].status)
    ensures Starts(m.processes, AcceptExit(m, p, how, v, owner).processes)
  {
  }

  lemma LoseThreadStarts(m: Mgr, t: Thread)
    requires t in m.lookup && m.lookup[t] in m.processes
    ensures Starts(m.processes, LoseThread(m, t).processes)
    ensures Starts(m.processes, WakeParked(LoseThread(m, t), m.lookup[t]).processes)
  {
  }

  lemma StartsSourced(a: Records, b: Records)
    requires Starts(a, b)
    ensures Sourced(a, b)
  {
    OnlyTakenNoNews(a, b);
  }

  lemma ExitStartSourced(m: Mgr, p: Pid, how: Option<Exit>, v: Vid, owner: Option<nat>, c: Choice)
    ensures Sourced(m.processes, ExitStart(m, p, how, v, owner, c).0.processes)
  {
    if p in m.processes && !Ending(m.processes[p].status) && how.Some? {
      var m1 := AcceptExit(m, p, how.value, v, owner);
      AcceptStarts(m, p, how.value, v, owner);
      WorkOnTermSourced(m1, v, p, owner, c);
      StartsThenSourced(m.processes, m1.processes, WorkOnTerm(m1, v, p, owner, c).0.processes);
    } else {
      OnlyTakenNoNews(m.processes, m.processes);
    }
  }

  lemma ThreadEventSourced(m: Mgr, t: Thread, d: Death, c: Choice)
    ensures Sourced(m.processes, ThreadEvent(m, t, d, c).processes)
  {
    StartsSourced(m.processes, m.processes);
    if ThreadEvent(m, t, d, c) != m {
      ThreadEventShape(m, t, d, c);
      var m1 := TakeInternal(LoseThread(m, t));
      var how, v := ParseExit(RawStatus(d)), Internal(m.nextInternal);
      LoseThreadStarts(m, t);
      StartsSourced(m.processes, m1.processes);
      StartsSourced(m.processes, WakeParked(LoseThread(m, t), m.lookup[t]).processes);
      ExitStartSourced(m1, m.lookup[t], how, v, None, c);
      StartsThenSourced(m.processes, m1.processes, ExitStart(m1, m.lookup[t], how, v, None, c).0.processes);
    }
  }

  // ---------------------------------------------------------------- waits and the rest

  lemma ReapTakes(m: Mgr, w: Pid)
    ensures Reap(m, w).processes == m.processes || Reap(m, w).processes == m.processes - {w}
  {
  }

  lemma DeliverTakes(m: Mgr, p: Pid, w: Pid, e: Event, flags: WaitFlags)
    requires p in m.processes
    ensures OnlyTaken(m.processes, Deliver(RemoveEntry(m, p, w), w, e, flags).0.processes)
  {
    ReapTakes(RemoveEntry(m, p, w), w);
  }

  lemma TakeOrWaitTakes(m: Mgr, p: Pid, found: Option<Pid>, flags: WaitFlags, v: Vid)
    requires p in m.processes
    requires found.Some? ==> found.value in m.processes[p].waitpid
    ensures OnlyTaken(m.processes, TakeOrWait(m, p, found, flags, v).0.processes)
  {
    if found.Some? { DeliverTakes(m, p, found.value, m.processes[p].waitpid[found.value].event, flags); }
  }

  lemma WaitpidTakes(m: Mgr, p: Pid, target: Target, flags: WaitFlags, v: Vid, c: Choice)
    ensures OnlyTaken(m.processes, Waitpid(m, p, target, flags, v, c).0.processes)
  {
    WaitpidShape(m, p, target, flags, v, c);
    if p in m.processes {
      TakeOrWaitTakes(m, p, Lookup(m, p, target, c), flags, v);
      if SeesExit(m, target) { DeliverTakes(m, p, target.pid, ExitSeen(m, target), flags); }
    }
  }

  lemma WorkOnSourced(m: Mgr, v: Vid, c: Choice)
    requires v in m.states
    ensures Sourced(m.processes, WorkOn(m, v, c).0.processes)
  {
    match m.states[v] {
      case Placeholder => OnlyTakenNoNews(m.processes, m.processes);
      case AwaitingTerm(p, owner) => WorkOnTermSourced(m, v, p, owner, c);
      case AwaitingStatusChange(p, target, flags, tag) =>
        WaitpidTakes(SetState(m, v, Placeholder), p, target, flags, v, c);
        OnlyTakenNoNews(m.processes, WorkOn(m, v, c).0.processes);
    }
  }

  lemma ForkTakes(m: Mgr, p: Pid, t: Thread, ok: bool)
    requires Numbered(m)
    ensures OnlyTaken(m.processes, Fork(m, p, t, ok).0.processes)
  {
    assert m.nextId !in m.processes;
  }

  lemma ChangePgidTakes(m: Mgr, p: Pid, parent: Option<Pid>, g: Pid)
    requires p in m.processes && (parent.Some? ==> parent.value in m.processes && parent.value != p)
    ensures var m' := ChangePgid(m, p, parent, g).0;
            m'.processes.Keys == m.processes.Keys && OnlyTaken(m.processes, m'.processes)
  {
  }

  lemma SetsidTakes(m: Mgr, p: Pid)
    ensures OnlyTaken(m.processes, Setsid(m, p).0.processes)
  {
    if Setsid(m, p).0 != m {
      SetsidShape(m, p);
      ChangePgidTakes(m, p, ParentOf(m, p), p);
    }
  }

  lemma SetpgidTakes(m: Mgr, caller: Pid, p: Pid, g: Pid)
    ensures OnlyTaken(m.processes, Setpgid(m, caller, p, g).0.processes)
  {
    if p in m.processes && m.processes[p].ppid == p { ChangePgidTakes(m, p, None, g); }
    if p in m.processes && m.processes[p].ppid != p && m.processes[p].ppid in m.processes {
      ChangePgidTakes(m, p, Some(m.processes[p].ppid), g);
    }
  }

  lemma SetresuidTakes(m: Mgr, p: Pid, r: Option<nat>, e: Option<nat>, s: Option<nat>)
    ensures OnlyTaken(m.processes, Setresuid(m, p, r, e, s).0.processes)
  {
  }

  lemma DisableSetpgidTakes(m: Mgr, p: Pid)
    ensures OnlyTaken(m.processes, DisableSetpgid(m, p).0.processes)
  {
  }

  lemma SyncSigPctlTakes(m: Mgr, p: Pid)
    ensures OnlyTaken(m.processes, SyncSigPctl(m, p).0.processes)
  {
  }

  lemma NewThreadTakes(m: Mgr, p: Pid, t: Thread, ok: bool)
    ensures OnlyTaken(m.processes, NewThread(m, p, t, ok).0.processes)
  {
  }

  lemma CancelTakes(m: Mgr, tag: nat)
    ensures Cancel(m, tag).0.processes == m.processes
  {
  }

  ghost predicate IsPlain(a: Action)
  {
    a.DoFork? || a.DoNewThread? || a.DoSetsid? || a.DoSetpgid? || a.DoSetresuid? || a.DoDisableSetpgid?
    || a.DoSyncSigPctl? || a.DoCancel?
  }

  lemma PlainTakes(m: Mgr, a: Action)
    requires Numbered(m) && Enabled(m, a) && IsPlain(a)
    ensures OnlyTaken(m.processes, Next(m, a).0.processes)
  {
    match a {
      case DoFork(p, t, ok) => ForkTakes(m, p, t, ok);
      case DoNewThread(p, t, ok) => NewThreadTakes(m, p, t, ok);
      case DoSetsid(p) => SetsidTakes(m, p);
      case DoSetpgid(caller, p, g) => SetpgidTakes(m, caller, p, g);
      case DoSetresuid(p, r, e, s) => SetresuidTakes(m, p, r, e, s);
      case DoDisableSetpgid(p) => DisableSetpgidTakes(m, p);
      case DoSyncSigPctl(p) => SyncSigPctlTakes(m, p);
      case DoCancel(tag) => CancelTakes(m, tag);
      case _ =>
    }
  }

  lemma StepSourced(m: Mgr, a: Action)
    requires Numbered(m) && Enabled(m, a)
    ensures Sourced(m.processes, Next(m, a).0.processes)
  {
    match a {
      case DoKill(caller, target, sig, c) => KillSourced(m, caller, target, sig, c);
      case DoExit(p, raw, tag, c) =>
        ExitStartSourced(DropState(m, Kernel(tag)), p, ParseExit(raw), Kernel(tag), Some(tag), c);
      case DoWait(p, target, flags, tag, c) =>
        WorkOnSourced(SetState(m, Kernel(tag), AwaitingStatusChange(p, target, flags, tag)), Kernel(tag), c);
      case DoThreadEvent(t, d, c) => ThreadEventSourced(m, t, d, c);
      case DoWake(c) =>
        if m.awoken[0] in m.states { WorkOnSourced(m.(awoken := m.awoken[1..]), m.awoken[0], c); }
      case _ =>
        PlainTakes(m, a);
        OnlyTakenNoNews(m.processes, Next(m, a).0.processes);
    }
  }

  // ---------------------------------------------------------------- runs

  /** Step `k` of the run did `e` to `w`. */
  ghost predicate HappenedAt(t: Thread, actions: seq<Action>, k: nat, w: Pid, e: Event)
  {
    && k < |actions| && Run(t, actions[..k]).At? && Run(t, actions[..k + 1]).At?
    && Happened(Run(t, actions[..k]).m.processes, Run(t, actions[..k + 1]).m.processes, w, e)
  }

  lemma HappenedEarlier(t: Thread, actions: seq<Action>, a: Action, k: nat, w: Pid, e: Event)
    requires HappenedAt(t, actions, k, w, e)
    ensures HappenedAt(t, actions + [a], k, w, e)
  {
    assert (actions + [a])[..k] == actions[..k] && (actions + [a])[..k + 1] == actions[..k + 1];
  }

  lemma HappensLast(t: Thread, actions: seq<Action>, a: Action, w: Pid, e: Event)
    requires Run(t, actions).At? && Run(t, actions + [a]).At?
    requires Happened(Run(t, actions).m.processes, Run(t, actions + [a]).m.processes, w, e)
    ensures HappenedAt(t, actions + [a], |actions|, w, e)
  {
    assert (actions + [a])[..|actions|] == actions && (actions + [a])[..|actions| + 1] == actions + [a];
  }

  lemma SourcedReports(a: Records, b: Records, w: Pid, e: Event)
    requires Sourced(a, b) && Reportable(b, w, e)
    requires w in a && w in b ==> StatusForward(a[w].status, b[w].status)
    ensures Reportable(a, w, e) || Happened(a, b, w, e)
  {
  }

  /** What is new in the last step happened in it. */
  lemma ReportableStep(m: Mgr, a: Action, w: Pid, e: Event)
    requires Inv(m, {}) && Enabled(m, a) && Reportable(Next(m, a).0.processes, w, e)
    ensures Reportable(m.processes, w, e) || Happened(m.processes, Next(m, a).0.processes, w, e)
  {
    StepSourced(m, a);
    StepForward(m, a);
    SourcedReports(m.processes, Next(m, a).0.processes, w, e);
  }

  /** In every run: whatever a wait could report about a process happened to it at some step. */
  lemma {:induction false} EventsHappened(t: Thread, actions: seq<Action>, w: Pid, e: Event) returns (k: nat)
    requires Run(t, actions).At? && Reportable(Run(t, actions).m.processes, w, e)
    ensures HappenedAt(t, actions, k, w, e)
    decreases |actions|
  {
    var last := |actions| - 1;
    assert actions != [];
    var before, a := actions[..last], actions[last];
    assert before + [a] == actions;
    RunSnoc(t, before, a);
    RunKeeps(t, before);
    var m := Run(t, before).m;
    ReportableStep(m, a, w, e);
    if Reportable(m.processes, w, e) {
      k := EventsHappened(t, before, w, e);
      HappenedEarlier(t, before, a, k, w, e);
    } else {
      k := last;
      HappensLast(t, before, a, w, e);
    }
  }

  /** In every run: a wait answer names a process and an event that happened to it earlier, a
      stop by that signal, a continue of the stopped process, or an end with that signal and
      status. */
  lemma ReportsAreTrue(t: Thread, actions: seq<Action>, a: Action, w: Pid, word: nat) returns (k: nat)
    requires Run(t, actions).At? && Enabled(Run(t, actions).m, a) && Reports(Run(t, actions).m, a, w, word)
    ensures StatusWord(DecodeWord(word)) == word && HappenedAt(t, actions, k, w, DecodeWord(word))
  {
    RunKeeps(t, actions);
    ReportDecodes(Run(t, actions).m, a, w, word);
    k := EventsHappened(t, actions, w, DecodeWord(word));
  }
}
