/** Exit, waitpid, cancellation and the wake-up loop keep the invariant. */
module ProcExit {
  import opened Wrappers
  import opened ProcTable
  import opened ProcInvariants
  import opened ProcSteps

  // ---------------------------------------------------------------- reparenting

  ghost predicate EntryComesFrom(m: Mgr, w: Pid, e: Entry)
  {
    exists q :: q in m.processes && w in m.processes[q].waitpid && m.processes[q].waitpid[w] == e
  }

  /** Only the parents of `kids` changed, and wait statuses moved without being altered. */
  ghost predicate Reparented(m: Mgr, m': Mgr, kids: set<Pid>)
  {
    && m' == m.(processes := m'.processes)
    && m'.processes.Keys == m.processes.Keys
    && (forall p :: p in m.processes ==>
          m'.processes[p] == m.processes[p].(ppid := if p in kids then INIT else m.processes[p].ppid,
                                             waitpid := m'.processes[p].waitpid))
    && (forall p, w :: p in m'.processes && w in m'.processes[p].waitpid ==>
          EntryComesFrom(m, w, m'.processes[p].waitpid[w]))
  }

  lemma ReparentOneSpec(m: Mgr, k: Pid)
    requires k in m.processes && INIT in m.processes && k != INIT
    ensures Reparented(m, ReparentOne(m, k), {k})
  {
    var m' := ReparentOne(m, k);
    forall p, w | p in m'.processes && w in m'.processes[p].waitpid
      ensures EntryComesFrom(m, w, m'.processes[p].waitpid[w])
    {
      assert p in m.processes && k in m.processes;
      if p == INIT && w in m.processes[k].waitpid {
        assert m.processes[k].waitpid[w] == m'.processes[p].waitpid[w];
      } else {
        assert m.processes[p].waitpid[w] == m'.processes[p].waitpid[w];
      }
    }
  }

  lemma ReparentedTransitive(a: Mgr, b: Mgr, c: Mgr, k1: set<Pid>, k2: set<Pid>)
    requires Reparented(a, b, k1) && Reparented(b, c, k2)
    ensures Reparented(a, c, k1 + k2)
  {
    forall p, w | p in c.processes && w in c.processes[p].waitpid
      ensures EntryComesFrom(a, w, c.processes[p].waitpid[w])
    {
      assert EntryComesFrom(b, w, c.processes[p].waitpid[w]);
      var q :| q in b.processes && w in b.processes[q].waitpid
               && b.processes[q].waitpid[w] == c.processes[p].waitpid[w];
      assert EntryComesFrom(a, w, b.processes[q].waitpid[w]);
    }
  }

  lemma ReparentedReflexive(m: Mgr)
    ensures Reparented(m, m, {})
  {
    forall p, w | p in m.processes && w in m.processes[p].waitpid
      ensures EntryComesFrom(m, w, m.processes[p].waitpid[w]) {}
  }

  ghost function Elements(s: seq<Pid>): (r: set<Pid>)
    ensures forall x :: x in r <==> x in s
  {
    set x | x in s
  }

  lemma ElementsSplit(s: seq<Pid>)
    requires s != []
    ensures Elements(s) == {s[0]} + Elements(s[1..])
  {
  }

  lemma {:induction false} ReparentSpec(m: Mgr, kids: seq<Pid>)
    requires INIT in m.processes
    requires forall k :: k in kids ==> k in m.processes && k != INIT
    ensures Reparented(m, Reparent(m, kids), Elements(kids))
    decreases |kids|
  {
    if kids == [] {
      ReparentedReflexive(m);
      assert Elements(kids) == {};
    } else {
      ReparentOneSpec(m, kids[0]);
      ReparentSpec(ReparentOne(m, kids[0]), kids[1..]);
      ReparentedTransitive(m, ReparentOne(m, kids[0]), Reparent(m, kids), {kids[0]}, Elements(kids[1..]));
      ElementsSplit(kids);
    }
  }

  lemma ReparentedKeepsTable(m: Mgr, m': Mgr, kids: set<Pid>)
    requires Coherent(m) && Reparented(m, m', kids)
    requires forall k :: k in kids ==> k in m.processes && k != INIT
    ensures Coherent(m')
  {
  }

  lemma ReparentedKeepsTruthful(m: Mgr, m': Mgr, kids: set<Pid>)
    requires Truthful(m) && Reparented(m, m', kids)
    ensures Truthful(m')
  {
    forall p, w | p in m'.processes && w in m'.processes[p].waitpid
      ensures EventTruthful(m', w, m'.processes[p].waitpid[w].event)
    {
      assert EntryComesFrom(m, w, m'.processes[p].waitpid[w]);
      var q :| q in m.processes && w in m.processes[q].waitpid
               && m.processes[q].waitpid[w] == m'.processes[p].waitpid[w];
      assert EventTruthful(m, w, m.processes[q].waitpid[w].event);
    }
  }

  lemma ReparentedKeepsThreads(m: Mgr, m': Mgr, kids: set<Pid>)
    requires ThreadsKnown(m) && Reparented(m, m', kids)
    ensures ThreadsKnown(m')
  {
  }

  lemma ReparentedKeeps(m: Mgr, m': Mgr, kids: set<Pid>)
    requires Inv(m, {}) && Reparented(m, m', kids)
    requires forall k :: k in kids ==> k in m.processes && k != INIT
    ensures Inv(m', {})
  {
    ReparentedKeepsTable(m, m', kids);
    ReparentedKeepsTruthful(m, m', kids);
    ReparentedKeepsThreads(m, m', kids);
    SameStatesKeep(m, m');
    SameOwnersKeep(m, m', {});
  }

  lemma OrphanStepKeeps(m: Mgr, p: Pid, pgid: Pid, c: Choice)
    requires Inv(m, {}) && INIT in m.processes
    ensures Inv(OrphanStep(m, p, pgid, c), {})
  {
    var m1 := WakeWaiters(m, INIT);
    WakeWaitersMild(m, INIT);
    MildKeeps(m, m1, {});
    var kids := ChildrenOf(m1, p, c.procs);
    var m2 := Reparent(m1, kids);
    ReparentSpec(m1, kids);
    ReparentedKeeps(m1, m2, Elements(kids));
    var affected := AffectedGroups(m1, kids, pgid);
    ContinueOrphansMild(m2, m1, affected, c.groups, c);
    MildKeeps(m2, OrphanStep(m, p, pgid, c), {});
  }

  /** Reparenting and its signals leave ended processes as they are. */
  lemma OrphanStepKeepsStatus(m: Mgr, p: Pid, pgid: Pid, c: Choice, q: Pid)
    requires INIT in m.processes && q in m.processes && Ending(m.processes[q].status)
    ensures OrphanStep(m, p, pgid, c).processes[q].status == m.processes[q].status
    ensures OrphanStep(m, p, pgid, c).accepted == m.accepted
  {
    var m1 := WakeWaiters(m, INIT);
    var kids := ChildrenOf(m1, p, c.procs);
    var m2 := Reparent(m1, kids);
    ReparentSpec(m1, kids);
    ContinueOrphansMild(m2, m1, AffectedGroups(m1, kids, pgid), c.groups, c);
    assert MildProc(m2.processes[q], OrphanStep(m, p, pgid, c).processes[q]);
  }

  // ---------------------------------------------------------------- finishing an exit

  lemma FileExitTruthful(m: Mgr, parent: Pid, p: Pid, pgid: Pid, how: Exit)
    requires Truthful(m) && parent in m.processes
    requires EventTruthful(m, p, Terminated(how))
    ensures Truthful(FileEvent(m, parent, p, pgid, Terminated(how)))
  {
    var m' := FileEvent(m, parent, p, pgid, Terminated(how));
    forall q, w | q in m'.processes && w in m'.processes[q].waitpid
      ensures EventTruthful(m', w, m'.processes[q].waitpid[w].event)
    {
      if q == parent && w == p {
        assert m'.processes[q].waitpid[w].event == Terminated(how);
      } else {
        assert EventTruthful(m, w, m.processes[q].waitpid[w].event);
      }
    }
  }

  /** Only the wait statuses and waiters of the parent changed, and the queue grew. */
  lemma FileEventShape(m: Mgr, parent: Pid, p: Pid, pgid: Pid, e: Event)
    requires parent in m.processes
    ensures var m' := FileEvent(m, parent, p, pgid, e);
            && m' == m.(processes := m'.processes, awoken := m'.awoken) && m.awoken <= m'.awoken
            && m'.processes == m.processes[parent := m'.processes[parent]]
            && m'.processes[parent] == m.processes[parent].(waitpid := m'.processes[parent].waitpid, waiting := [])
  {
  }

  lemma FileExitTable(m: Mgr, parent: Pid, p: Pid, pgid: Pid, how: Exit)
    requires Table(m) && parent in m.processes && EventTruthful(m, p, Terminated(how))
    ensures Table(FileEvent(m, parent, p, pgid, Terminated(how)))
  {
    var m' := FileEvent(m, parent, p, pgid, Terminated(how));
    FileEventShape(m, parent, p, pgid, Terminated(how));
    OneRecordCoherent(m, m', parent);
    FileExitTruthful(m, parent, p, pgid, how);
    OneRecordThreads(m, m', parent);
  }

  lemma FileEventOwned(m: Mgr, parent: Pid, p: Pid, pgid: Pid, e: Event)
    requires ExitsOwned(m, {}) && parent in m.processes
    ensures ExitsOwned(FileEvent(m, parent, p, pgid, e), {})
  {
    FileEventShape(m, parent, p, pgid, e);
    SameOwnersKeep(m, FileEvent(m, parent, p, pgid, e), {});
  }

  lemma FileExitKeeps(m: Mgr, parent: Pid, p: Pid, pgid: Pid, how: Exit)
    requires Inv(m, {}) && parent in m.processes
    requires EventTruthful(m, p, Terminated(how))
    ensures Inv(FileEvent(m, parent, p, pgid, Terminated(how)), {})
  {
    var m' := FileEvent(m, parent, p, pgid, Terminated(how));
    FileEventShape(m, parent, p, pgid, Terminated(how));
    FileExitTable(m, parent, p, pgid, how);
    SameStatesKeep(m, m');
    FileEventOwned(m, parent, p, pgid, Terminated(how));
  }

  lemma MarkExitedTruthful(m: Mgr, v: Vid, p: Pid, how: Exit)
    requires Truthful(m) && p in m.processes && m.processes[p].status == Exiting(how)
    ensures Truthful(Put(DropState(m, v), p, m.processes[p].(status := Exited(how))))
  {
    var m' := Put(DropState(m, v), p, m.processes[p].(status := Exited(how)));
    forall q, w | q in m'.processes && w in m'.processes[q].waitpid
      ensures EventTruthful(m', w, m'.processes[q].waitpid[w].event)
    {
      assert EventTruthful(m, w, m.processes[q].waitpid[w].event);
    }
  }

  lemma MarkExitedOwned(m: Mgr, v: Vid, p: Pid, how: Exit)
    requires ExitsOwned(m, {v}) && v in m.states && p in m.processes
    requires m.states[v].AwaitingTerm? && m.states[v].pid == p
    ensures ExitsOwned(Put(DropState(m, v), p, m.processes[p].(status := Exited(how))), {})
  {
    var m' := Put(DropState(m, v), p, m.processes[p].(status := Exited(how)));
    forall q | q in m'.processes && m'.processes[q].status.Exiting? ensures exists u :: Owns(m', u, q, {}) {
      var u :| Owns(m, u, q, {v});
      assert Owns(m', u, q, {});
    }
  }

  lemma FewerStatesKeep(m: Mgr, m': Mgr)
    requires StatesNumbered(m) && m'.nextInternal == m.nextInternal && m'.accepted == m.accepted
    requires forall v :: v in m'.states ==>
               (v in m.states && (m'.states[v] == m.states[v] || m'.states[v].Placeholder?))
    ensures StatesNumbered(m')
  {
    forall v | v in m'.states ensures StateNumbered(m', v, m'.states[v]) {
      assert StateNumbered(m, v, m.states[v]);
    }
  }

  lemma MarkExitedKeeps(m: Mgr, v: Vid, p: Pid, how: Exit)
    requires Inv(m, {v}) && v in m.states && p in m.processes
    requires m.states[v].AwaitingTerm? && m.states[v].pid == p && m.processes[p].status == Exiting(how)
    ensures Inv(Put(DropState(m, v), p, m.processes[p].(status := Exited(how))), {})
  {
    var proc := m.processes[p].(status := Exited(how));
    var m1 := Put(DropState(m, v), p, proc);
    OneRecordCoherent(m, m1, p);
    MarkExitedTruthful(m, v, p, how);
    OneRecordThreads(m, m1, p);
    FewerStatesKeep(m, m1);
    MarkExitedOwned(m, v, p, how);
  }

  lemma ExitIsTruthful(m: Mgr, p: Pid, how: Exit)
    requires Truthful(m) && p in m.processes && m.processes[p].status == Exited(how)
    ensures EventTruthful(m, p, Terminated(how))
  {
  }

  lemma FinishExitKeeps(m: Mgr, v: Vid, p: Pid, how: Exit, c: Choice)
    requires Inv(m, {v}) && v in m.states && p in m.processes
    requires m.states[v].AwaitingTerm? && m.states[v].pid == p && m.processes[p].status == Exiting(how)
    ensures Inv(FinishExit(DropState(m, v), p, how, c), {})
  {
    var proc := m.processes[p];
    var m1 := Put(DropState(m, v), p, proc.(status := Exited(how)));
    MarkExitedKeeps(m, v, p, how);
    if proc.ppid in m1.processes {
      var m2 := if INIT in m1.processes then OrphanStep(m1, p, proc.pgid, c) else m1;
      if INIT in m1.processes {
        OrphanStepKeeps(m1, p, proc.pgid, c);
        OrphanStepKeepsStatus(m1, p, proc.pgid, c, p);
      }
      ExitIsTruthful(m2, p, how);
      FileExitKeeps(m2, proc.ppid, p, proc.pgid, how);
    }
  }

  /** A pending state that owns no unfinished exit may be answered or dropped. */
  lemma RetireKeeps(m: Mgr, v: Vid, m': Mgr)
    requires Inv(m, {v}) && v in m.states
    requires m' == SetState(m, v, Placeholder) || m' == DropState(m, v)
    requires m.states[v].AwaitingTerm? ==>
               m.states[v].pid in m.processes ==> !m.processes[m.states[v].pid].status.Exiting?
    ensures Inv(m', {})
  {
    SameTable(m, m');
    FewerStatesKeep(m, m');
    forall q | q in m'.processes && m'.processes[q].status.Exiting? ensures exists u :: Owns(m', u, q, {}) {
      var u :| Owns(m, u, q, {v});
      assert Owns(m', u, q, {});
    }
  }

  lemma ParkAgainKeeps(m: Mgr, v: Vid, p: Pid, owner: Option<nat>)
    requires Inv(m, {v}) && v in m.states && m.states[v] == AwaitingTerm(p, owner)
    requires p in m.processes && m.processes[p].threads != []
    ensures var proc := m.processes[p];
            Inv(Put(m, p, proc.(awaitingTerm := proc.awaitingTerm + [v])), {})
  {
    var proc := m.processes[p];
    var m' := Put(m, p, proc.(awaitingTerm := proc.awaitingTerm + [v]));
    OneRecord(m, m', p);
    OneRecordThreads(m, m', p);
    SameStatesKeep(m, m');
    forall q | q in m'.processes && m'.processes[q].status.Exiting? ensures exists u :: Owns(m', u, q, {}) {
      var u :| Owns(m, u, q, {v});
      assert Owns(m', u, q, {});
    }
  }

  /** The three things a termination wake-up can do. */
  lemma WorkOnTermShape(m: Mgr, v: Vid, p: Pid, owner: Option<nat>, c: Choice)
    ensures var m' := WorkOnTerm(m, v, p, owner, c).0;
            if p in m.processes && m.processes[p].threads == [] && m.processes[p].status.Exiting?
            then m' == FinishExit(DropState(m, v), p, m.processes[p].status.how, c)
            else if p in m.processes && m.processes[p].threads != []
            then m' == SetState(Put(m, p, m.processes[p].(awaitingTerm := m.processes[p].awaitingTerm + [v])),
                                v, AwaitingTerm(p, owner))
            else m' == SetState(m, v, Placeholder) || m' == DropState(m, v)
  {
  }

  lemma SameState(m: Mgr, v: Vid, s: Pending)
    requires v in m.states && m.states[v] == s
    ensures SetState(m, v, s) == m
  {
  }

  lemma WorkOnTermKeeps(m: Mgr, v: Vid, p: Pid, owner: Option<nat>, c: Choice)
    requires Inv(m, {v}) && v in m.states && m.states[v] == AwaitingTerm(p, owner)
    ensures Inv(WorkOnTerm(m, v, p, owner, c).0, {})
  {
    WorkOnTermShape(m, v, p, owner, c);
    if p in m.processes && m.processes[p].threads != [] {
      ParkAgainKeeps(m, v, p, owner);
      var proc := m.processes[p];
      SameState(Put(m, p, proc.(awaitingTerm := proc.awaitingTerm + [v])), v, AwaitingTerm(p, owner));
    } else if p in m.processes && m.processes[p].status.Exiting? {
      FinishExitKeeps(m, v, p, m.processes[p].status.how, c);
    } else {
      RetireKeeps(m, v, WorkOnTerm(m, v, p, owner, c).0);
    }
  }

  // ---------------------------------------------------------------- waitpid

  lemma ReapKeepsCoherent(m: Mgr, p: Pid)
    requires Coherent(m)
    ensures Coherent(Reap(m, p))
  {
    if p in m.processes && m.processes[p].threads == [] {
      var g := m.processes[p].pgid;
      WithoutNoDup(m.groups[g], p);
    }
  }

  lemma ReapKeepsTruthful(m: Mgr, p: Pid)
    requires Truthful(m)
    ensures Truthful(Reap(m, p))
  {
    var m' := Reap(m, p);
    forall q, w | q in m'.processes && w in m'.processes[q].waitpid
      ensures EventTruthful(m', w, m'.processes[q].waitpid[w].event)
    {
      assert EventTruthful(m, w, m.processes[q].waitpid[w].event);
    }
  }

  lemma ReapKeepsThreads(m: Mgr, p: Pid)
    requires ThreadsKnown(m)
    ensures ThreadsKnown(Reap(m, p))
  {
  }

  lemma ReapKeeps(m: Mgr, p: Pid)
    requires Inv(m, {})
    ensures Inv(Reap(m, p), {})
  {
    ReapKeepsCoherent(m, p);
    ReapKeepsTruthful(m, p);
    ReapKeepsThreads(m, p);
    SameStatesKeep(m, Reap(m, p));
    SameOwnersKeep(m, Reap(m, p), {});
  }

  lemma DeliverKeeps(m: Mgr, p: Pid, w: Pid, e: Event, flags: WaitFlags)
    requires Inv(m, {}) && p in m.processes
    ensures Inv(Deliver(RemoveEntry(m, p, w), w, e, flags).0, {})
  {
    var m1 := RemoveEntry(m, p, w);
    PutMild(m, p, m.processes[p].(waitpid := m.processes[p].waitpid - {w}));
    MildKeeps(m, m1, {});
    ReapKeeps(m1, w);
  }

  lemma TakeOrWaitKeeps(m: Mgr, p: Pid, found: Option<Pid>, flags: WaitFlags, v: Vid)
    requires Inv(m, {}) && p in m.processes
    requires found.Some? ==> found.value in m.processes[p].waitpid
    ensures Inv(TakeOrWait(m, p, found, flags, v).0, {})
  {
    var proc := m.processes[p];
    match found {
      case Some(w) => DeliverKeeps(m, p, w, proc.waitpid[w].event, flags);
      case None =>
        PutMild(m, p, proc.(waiting := proc.waiting + [v]));
        MildKeeps(m, Put(m, p, proc.(waiting := proc.waiting + [v])), {});
    }
  }

  /** The entry a wait of `p` looks for. */
  ghost function Lookup(m: Mgr, p: Pid, target: Target, c: Choice): (r: Option<Pid>)
    requires p in m.processes
    ensures r.Some? ==> r.value in m.processes[p].waitpid
  {
    var proc := m.processes[p];
    match target
    case AnyChild => FirstEntry(proc)
    case AnyGroupMember => GroupEntry(proc, proc.pgid, c)
    case SingleProc(t) => if t in proc.waitpid then Some(t) else None
    case ProcGroup(g) => GroupEntry(proc, g, c)
  }

  /** The target is one process, and it has exited. */
  ghost predicate SeesExit(m: Mgr, target: Target)
  {
    target.SingleProc? && target.pid in m.processes && m.processes[target.pid].status.Exited?
  }

  ghost function ExitSeen(m: Mgr, target: Target): (e: Event)
    requires SeesExit(m, target)
  {
    Terminated(m.processes[target.pid].status.how)
  }

  /** A wait changes nothing, or takes or awaits the entry it looks for, or delivers an exit. */
  lemma WaitpidShape(m: Mgr, p: Pid, target: Target, flags: WaitFlags, v: Vid, c: Choice)
    ensures var r := Waitpid(m, p, target, flags, v, c);
            || (r.0 == m && r.1.Ready? && r.1.result.Err?)
            || (p in m.processes && r == TakeOrWait(m, p, Lookup(m, p, target, c), flags, v))
            || (&& p in m.processes && SeesExit(m, target)
                && r == Deliver(RemoveEntry(m, p, target.pid), target.pid, ExitSeen(m, target), flags))
  {
  }

  lemma WaitpidKeeps(m: Mgr, p: Pid, target: Target, flags: WaitFlags, v: Vid, c: Choice)
    requires Inv(m, {})
    ensures Inv(Waitpid(m, p, target, flags, v, c).0, {})
  {
    WaitpidShape(m, p, target, flags, v, c);
    if p in m.processes {
      TakeOrWaitKeeps(m, p, Lookup(m, p, target, c), flags, v);
      if SeesExit(m, target) { DeliverKeeps(m, p, target.pid, ExitSeen(m, target), flags); }
    }
  }

  lemma PutBackKeeps(m: Mgr, v: Vid, s: Pending)
    requires Inv(m, {}) && StateNumbered(m, v, s) && v in m.states && !m.states[v].AwaitingTerm?
    ensures Inv(SetState(m, v, s), {})
  {
    var m' := SetState(m, v, s);
    SameTable(m, m');
    forall u | u in m'.states ensures StateNumbered(m', u, m'.states[u]) {
      if u != v { assert StateNumbered(m, u, m.states[u]); }
    }
    SameOwnersKeep(m, m', {});
  }

  lemma WorkOnKeeps(m: Mgr, v: Vid, c: Choice)
    requires Inv(m, {v}) && v in m.states
    ensures Inv(WorkOn(m, v, c).0, {})
  {
    match m.states[v] {
      case Placeholder =>
        RetireKeeps(m, v, SetState(m, v, Placeholder));
        assert SetState(m, v, Placeholder) == m;
      case AwaitingTerm(p, owner) => WorkOnTermKeeps(m, v, p, owner, c);
      case AwaitingStatusChange(p, target, flags, tag) =>
        var m0 := SetState(m, v, Placeholder);
        RetireKeeps(m, v, m0);
        WaitpidKeeps(m0, p, target, flags, v, c);
        assert StateNumbered(m, v, m.states[v]);
        PutBackKeeps(Waitpid(m0, p, target, flags, v, c).0, v, m.states[v]);
    }
  }
}
