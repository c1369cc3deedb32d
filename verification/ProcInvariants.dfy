/** What every request and event of the process manager keeps. */
module ProcInvariants {
  import opened Wrappers
  import opened ProcTable

  // ---------------------------------------------------------------- the invariant

  ghost predicate GroupsListMembers(m: Mgr)
  {
    forall g :: g in m.groups ==>
      && m.groups[g] != [] && NoDup(m.groups[g])
      && forall p :: p in m.groups[g] ==> p in m.processes && m.processes[p].pgid == g
  }

  ghost predicate MembersAreListed(m: Mgr)
  {
    forall p :: p in m.processes ==>
      m.processes[p].pgid in m.groups && p in m.groups[m.processes[p].pgid]
  }

  ghost predicate Numbered(m: Mgr)
  {
    && INIT < m.nextId
    && forall p :: p in m.processes ==>
         var proc := m.processes[p];
         && 1 <= p < m.nextId && proc.pgid < m.nextId && proc.sid < m.nextId
         && (if p == INIT then proc.ppid == INIT else proc.ppid < p)
         && (proc.sid == p ==> proc.pgid == p)
  }

  /** Every process is in exactly the group its pgid names, exactly once; no group is empty;
      a session leader leads its group; parents are older than their children. */
  ghost predicate Coherent(m: Mgr)
  {
    GroupsListMembers(m) && MembersAreListed(m) && Numbered(m)
  }

  ghost predicate ValidExit(how: Exit)
  {
    how.signal <= 64 && how.status < 256 && (how.signal != 0 ==> how.status == 0)
  }

  ghost predicate ValidEvent(e: Event)
  {
    match e
    case Continued => true
    case StoppedBy(sig) => 1 <= sig <= 64
    case Terminated(how) => ValidExit(how)
  }

  ghost predicate StatusesTruthful(m: Mgr)
  {
    forall p :: p in m.processes ==>
      var status := m.processes[p].status;
      && (Ending(status) <==> p in m.accepted)
      && (Ending(status) ==> status.how == m.accepted[p])
      && (status.Stopped? ==> m.processes[p].hasPctl)
  }

  ghost predicate EventTruthful(m: Mgr, w: Pid, e: Event)
  {
    && ValidEvent(e)
    && (e.Terminated? ==>
          && w in m.accepted && m.accepted[w] == e.how
          && (w in m.processes ==> m.processes[w].status.Exited?))
  }

  ghost predicate EntriesTruthful(m: Mgr)
  {
    forall p, w :: p in m.processes && w in m.processes[p].waitpid ==>
      EventTruthful(m, w, m.processes[p].waitpid[w].event)
  }

  ghost predicate AcceptedValid(m: Mgr)
  {
    forall p :: p in m.accepted ==> p < m.nextId && ValidExit(m.accepted[p])
  }

  ghost predicate Truthful(m: Mgr)
  {
    StatusesTruthful(m) && EntriesTruthful(m) && AcceptedValid(m)
  }

  ghost predicate LookupMatches(m: Mgr)
  {
    && (forall t :: t in m.lookup ==> m.lookup[t] in m.processes && t in m.processes[m.lookup[t]].threads)
    && (forall p, t :: p in m.processes && t in m.processes[p].threads ==> t in m.lookup && m.lookup[t] == p)
  }

  /** A process without threads is on its way out; `except` may be caught in between. */
  ghost predicate ThreadlessEnding(m: Mgr, except: set<Pid>)
  {
    forall p :: p in m.processes && p !in except && m.processes[p].threads == [] ==> Ending(m.processes[p].status)
  }

  ghost predicate ThreadsKnown(m: Mgr)
  {
    LookupMatches(m) && ThreadlessEnding(m, {})
  }

  ghost predicate StateNumbered(m: Mgr, v: Vid, s: Pending)
  {
    && (v.Internal? ==> v.n < m.nextInternal)
    && (s.AwaitingTerm? ==>
          s.pid in m.accepted && s.owner == if v.Kernel? then Some(v.id) else None)
    && (s.AwaitingStatusChange? ==> v == Kernel(s.tag))
  }

  ghost predicate StatesNumbered(m: Mgr)
  {
    forall v :: v in m.states ==> StateNumbered(m, v, m.states[v])
  }

  /** Pending state `v` will finish the exit of `p`: it is queued for wake-up, or it is
      parked with the process while threads are still alive. */
  ghost predicate Owns(m: Mgr, v: Vid, p: Pid, extra: set<Vid>)
    requires p in m.processes
  {
    && v in m.states && m.states[v].AwaitingTerm? && m.states[v].pid == p
    && (v in m.awoken || v in extra || (v in m.processes[p].awaitingTerm && m.processes[p].threads != []))
  }

  ghost predicate ExitsOwned(m: Mgr, extra: set<Vid>)
  {
    forall p :: p in m.processes && m.processes[p].status.Exiting? ==> exists v :: Owns(m, v, p, extra)
  }

  /** `extra` holds the states that were taken from the queue but not worked on yet. */
  ghost predicate Inv(m: Mgr, extra: set<Vid>)
  {
    Table(m) && StatesNumbered(m) && ExitsOwned(m, extra)
  }

  ghost predicate Table(m: Mgr)
  {
    Coherent(m) && Truthful(m) && ThreadsKnown(m)
  }

  // ---------------------------------------------------------------- steps that keep the table

  /** What signals, wake-ups, fetched wait statuses and attribute changes may do to one process. */
  ghost predicate MildProc(a: Process, b: Process)
  {
    && b == a.(creds := b.creds, disabledSetpgid := b.disabledSetpgid, hasPctl := b.hasPctl,
               status := b.status, waitpid := b.waitpid, waiting := b.waiting)
    && (Ending(a.status) || Ending(b.status) ==> b.status == a.status)
    && (a.hasPctl ==> b.hasPctl)
    && (b.status.Stopped? && !a.status.Stopped? ==> b.hasPctl)
    && forall w :: w in b.waitpid ==>
         || (w in a.waitpid && b.waitpid[w] == a.waitpid[w])
         || (ValidEvent(b.waitpid[w].event) && !b.waitpid[w].event.Terminated?)
  }

  ghost predicate Mild(m: Mgr, m': Mgr)
  {
    && m' == m.(processes := m'.processes, awoken := m'.awoken)
    && m.awoken <= m'.awoken
    && m'.processes.Keys == m.processes.Keys
    && forall p :: p in m.processes ==> MildProc(m.processes[p], m'.processes[p])
  }

  lemma MildTransitive(a: Mgr, b: Mgr, c: Mgr)
    requires Mild(a, b) && Mild(b, c)
    ensures Mild(a, c)
  {
    forall p | p in a.processes ensures MildProc(a.processes[p], c.processes[p]) {
      assert MildProc(a.processes[p], b.processes[p]) && MildProc(b.processes[p], c.processes[p]);
    }
  }

  lemma MildKeepsCoherent(m: Mgr, m': Mgr)
    requires Coherent(m) && Mild(m, m')
    ensures Coherent(m')
  {
    forall p | p in m'.processes ensures MildProc(m.processes[p], m'.processes[p]) {}
  }

  lemma MildKeepsTruthful(m: Mgr, m': Mgr)
    requires Truthful(m) && Mild(m, m')
    ensures Truthful(m')
  {
    forall p | p in m'.processes ensures MildProc(m.processes[p], m'.processes[p]) {}
    forall p, w | p in m'.processes && w in m'.processes[p].waitpid
      ensures EventTruthful(m', w, m'.processes[p].waitpid[w].event)
    {
      assert MildProc(m.processes[p], m'.processes[p]);
      if w in m.processes[p].waitpid { assert EventTruthful(m, w, m.processes[p].waitpid[w].event); }
      if w in m.processes { assert MildProc(m.processes[w], m'.processes[w]); }
    }
  }

  lemma MildKeepsOwned(m: Mgr, m': Mgr, extra: set<Vid>)
    requires ExitsOwned(m, extra) && Mild(m, m')
    ensures ExitsOwned(m', extra)
  {
    forall p | p in m'.processes && m'.processes[p].status.Exiting? ensures exists v :: Owns(m', v, p, extra) {
      assert MildProc(m.processes[p], m'.processes[p]);
      var v :| Owns(m, v, p, extra);
      assert Owns(m', v, p, extra);
    }
  }

  lemma MildKeepsThreads(m: Mgr, m': Mgr)
    requires ThreadsKnown(m) && Mild(m, m')
    ensures ThreadsKnown(m')
  {
    forall p | p in m'.processes ensures MildProc(m.processes[p], m'.processes[p]) {}
  }

  lemma SameStatesKeep(m: Mgr, m': Mgr)
    requires StatesNumbered(m) && m'.states == m.states
    requires m.nextInternal <= m'.nextInternal && m.accepted.Keys <= m'.accepted.Keys
    ensures StatesNumbered(m')
  {
    forall v | v in m'.states ensures StateNumbered(m', v, m'.states[v]) {
      assert StateNumbered(m, v, m.states[v]);
    }
  }

  lemma MildKeeps(m: Mgr, m': Mgr, extra: set<Vid>)
    requires Inv(m, extra) && Mild(m, m')
    ensures Inv(m', extra)
  {
    MildKeepsCoherent(m, m');
    MildKeepsTruthful(m, m');
    MildKeepsThreads(m, m');
    SameStatesKeep(m, m');
    MildKeepsOwned(m, m', extra);
  }

  lemma PutMild(m: Mgr, p: Pid, proc: Process)
    requires p in m.processes && MildProc(m.processes[p], proc)
    ensures Mild(m, Put(m, p, proc))
  {
  }

  lemma WakeWaitersMild(m: Mgr, p: Pid)
    requires p in m.processes
    ensures Mild(m, WakeWaiters(m, p))
  {
  }

  lemma FileEventMild(m: Mgr, parent: Pid, child: Pid, pgid: Pid, event: Event)
    requires parent in m.processes && ValidEvent(event) && !event.Terminated?
    ensures Mild(m, FileEvent(m, parent, child, pgid, event))
  {
    var proc := m.processes[parent];
    var key := if child in proc.waitpid then proc.waitpid[child].pgid else pgid;
    var filed := proc.(waitpid := proc.waitpid[child := Entry(key, event)]);
    PutMild(m, parent, filed);
    WakeWaitersMild(Put(m, parent, filed), parent);
    MildTransitive(m, Put(m, parent, filed), FileEvent(m, parent, child, pgid, event));
  }

  lemma ChangeRunStateMild(m: Mgr, p: Pid, status: Status, event: Event)
    requires p in m.processes && !Ending(m.processes[p].status) && !Ending(status)
    requires m.processes[p].hasPctl && ValidEvent(event) && !event.Terminated?
    ensures Mild(m, ChangeRunState(m, p, status, event).0)
  {
    var proc := m.processes[p];
    var m1 := Put(m, p, proc.(status := status));
    PutMild(m, p, proc.(status := status));
    if proc.ppid in m1.processes {
      FileEventMild(m1, proc.ppid, p, proc.pgid, event);
      MildTransitive(m, m1, FileEvent(m1, proc.ppid, p, proc.pgid, event));
    }
  }

  lemma SendSigMild(m: Mgr, caller: Pid, target: Pid, sig: nat, c: Choice)
    ensures Mild(m, SendSig(m, caller, target, sig, c).0)
  {
    match SigEffect(m, caller, target, sig, c) {
      case Continues => ChangeRunStateMild(m, target, PossiblyRunnable, Continued);
      case Stops => ChangeRunStateMild(m, target, Stopped(sig), StoppedBy(sig));
      case _ =>
    }
  }

  lemma {:induction false} SendManyMild(m: Mgr, caller: Pid, group: Option<Pid>, sig: nat, order: seq<Pid>, c: Choice)
    ensures Mild(m, SendMany(m, caller, group, sig, order, c))
    decreases |order|
  {
    if order != [] {
      var p := order[0];
      SendSigMild(m, caller, p, sig, c);
      var m1 := if p in m.processes && (group.None? || m.processes[p].pgid == group.value)
                then SendSig(m, caller, p, sig, c).0 else m;
      SendManyMild(m1, caller, group, sig, order[1..], c);
      MildTransitive(m, m1, SendMany(m1, caller, group, sig, order[1..], c));
    }
  }

  lemma KillMild(m: Mgr, caller: Pid, target: KillTarget, sig: nat, c: Choice)
    ensures Mild(m, Kill(m, caller, target, sig, c))
  {
    match target {
      case KillOne(p) => SendSigMild(m, caller, p, sig, c);
      case KillAll => SendManyMild(m, caller, None, sig, c.procs, c);
      case KillGroup(g) => SendManyMild(m, caller, Some(g), sig, c.procs, c);
      case KillOwnGroup =>
        if caller in m.processes { SendManyMild(m, caller, Some(m.processes[caller].pgid), sig, c.procs, c); }
    }
  }

  lemma {:induction false} ContinueMembersMild(m: Mgr, members: seq<Pid>, c: Choice)
    ensures Mild(m, ContinueMembers(m, members, c))
    decreases |members|
  {
    if members != [] {
      var p := members[0];
      var m1 := SendSig(m, INIT, p, SIGCONT, c).0;
      var m2 := SendSig(m1, INIT, p, SIGHUP, c).0;
      SendSigMild(m, INIT, p, SIGCONT, c);
      SendSigMild(m1, INIT, p, SIGHUP, c);
      MildTransitive(m, m1, m2);
      var m3 := if p in m.processes && m.processes[p].status.Stopped? then m2 else m;
      ContinueMembersMild(m3, members[1..], c);
      MildTransitive(m, m3, ContinueMembers(m3, members[1..], c));
    }
  }

  lemma {:induction false} ContinueOrphansMild(m: Mgr, before: Mgr, affected: set<Pid>, order: seq<Pid>, c: Choice)
    ensures Mild(m, ContinueOrphans(m, before, affected, order, c))
    decreases |order|
  {
    if order != [] {
      var g := order[0];
      if g in m.groups { ContinueMembersMild(m, m.groups[g], c); }
      var m1 := if g in affected && Orphaned(before, g) != Some(true) && Orphaned(m, g) == Some(true)
                then ContinueMembers(m, m.groups[g], c) else m;
      ContinueOrphansMild(m1, before, affected, order[1..], c);
      MildTransitive(m, m1, ContinueOrphans(m1, before, affected, order[1..], c));
    }
  }
}
