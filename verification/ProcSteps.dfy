/** Every operation of the process manager keeps the invariant. */
module ProcSteps {
  import opened Wrappers
  import opened ProcTable
  import opened ProcInvariants

  // ---------------------------------------------------------------- frames

  lemma SameTable(m: Mgr, m': Mgr)
    requires Table(m)
    requires m'.processes == m.processes && m'.groups == m.groups && m'.lookup == m.lookup
    requires m'.accepted == m.accepted && m.nextId <= m'.nextId
    ensures Table(m')
  {
    SameRecords(m, m');
  }

  lemma SameRecords(m: Mgr, m': Mgr)
    requires Coherent(m) && Truthful(m)
    requires m'.processes == m.processes && m'.groups == m.groups
    requires m'.accepted == m.accepted && m.nextId <= m'.nextId
    ensures Coherent(m') && Truthful(m')
  {
    forall p, w | p in m'.processes && w in m'.processes[p].waitpid
      ensures EventTruthful(m', w, m'.processes[p].waitpid[w].event)
    {
      assert EventTruthful(m, w, m.processes[p].waitpid[w].event);
    }
  }

  /** Only the thread list and the parked states of `p` changed. */
  lemma OneRecord(m: Mgr, m': Mgr, p: Pid)
    requires Coherent(m) && Truthful(m) && p in m.processes && p in m'.processes
    requires m'.processes == m.processes[p := m'.processes[p]]
    requires m'.processes[p] == m.processes[p].(threads := m'.processes[p].threads,
                                                awaitingTerm := m'.processes[p].awaitingTerm)
    requires m'.groups == m.groups && m'.accepted == m.accepted && m'.nextId == m.nextId
    ensures Coherent(m') && Truthful(m')
  {
    OneRecordCoherent(m, m', p);
    OneRecordTruthful(m, m', p);
  }

  lemma OneRecordCoherent(m: Mgr, m': Mgr, p: Pid)
    requires Coherent(m) && p in m.processes && p in m'.processes
    requires m'.processes == m.processes[p := m'.processes[p]]
    requires m'.processes[p].ppid == m.processes[p].ppid
    requires m'.processes[p].pgid == m.processes[p].pgid && m'.processes[p].sid == m.processes[p].sid
    requires m'.groups == m.groups && m'.nextId == m.nextId
    ensures Coherent(m')
  {
  }

  lemma OneRecordTruthful(m: Mgr, m': Mgr, p: Pid)
    requires Truthful(m) && p in m.processes && p in m'.processes
    requires m'.processes == m.processes[p := m'.processes[p]]
    requires m'.processes[p].status == m.processes[p].status && m'.processes[p].hasPctl == m.processes[p].hasPctl
    requires m'.processes[p].waitpid == m.processes[p].waitpid
    requires m'.accepted == m.accepted && m'.nextId == m.nextId
    ensures Truthful(m')
  {
    forall q, w | q in m'.processes && w in m'.processes[q].waitpid
      ensures EventTruthful(m', w, m'.processes[q].waitpid[w].event)
    {
      assert m'.processes[q].waitpid == m.processes[q].waitpid;
      assert EventTruthful(m, w, m.processes[q].waitpid[w].event);
    }
  }

  lemma OneRecordThreads(m: Mgr, m': Mgr, p: Pid)
    requires ThreadsKnown(m) && p in m.processes && p in m'.processes
    requires m'.processes == m.processes[p := m'.processes[p]] && m'.lookup == m.lookup
    requires m'.processes[p].threads == m.processes[p].threads
    requires Ending(m.processes[p].status) ==> Ending(m'.processes[p].status)
    ensures ThreadsKnown(m')
  {
  }

  lemma OneRecordOwned(m: Mgr, m': Mgr, p: Pid, extra: set<Vid>)
    requires ExitsOwned(m, extra) && p in m.processes && p in m'.processes
    requires m'.processes == m.processes[p := m'.processes[p]] && m'.states == m.states && m'.awoken == m.awoken
    requires m'.processes[p].status.Exiting? ==>
               && m.processes[p].status.Exiting? && m'.processes[p].awaitingTerm == m.processes[p].awaitingTerm
               && (m.processes[p].threads != [] ==> m'.processes[p].threads != [])
    ensures ExitsOwned(m', extra)
  {
    forall q | q in m'.processes && m'.processes[q].status.Exiting? ensures exists v :: Owns(m', v, q, extra) {
      var v :| Owns(m, v, q, extra);
      assert Owns(m', v, q, extra);
    }
  }

  // ---------------------------------------------------------------- fork and threads

  lemma ForkKeepsCoherent(m: Mgr, parent: Pid, t: Thread)
    requires Coherent(m) && parent in m.processes
    ensures Coherent(Fork(m, parent, t, true).0)
  {
    var m' := Fork(m, parent, t, true).0;
    var g := m.processes[parent].pgid;
    assert m.nextId !in m.processes;
    assert forall p :: p in m'.groups[g] <==> p in m.groups[g] || p == m.nextId;
  }

  lemma ForkKeepsTruthful(m: Mgr, parent: Pid, t: Thread)
    requires Coherent(m) && Truthful(m) && parent in m.processes
    ensures Truthful(Fork(m, parent, t, true).0)
  {
    var m' := Fork(m, parent, t, true).0;
    forall p, w | p in m'.processes && w in m'.processes[p].waitpid
      ensures EventTruthful(m', w, m'.processes[p].waitpid[w].event)
    {
      assert EventTruthful(m, w, m.processes[p].waitpid[w].event);
    }
  }

  lemma ForkKeepsOwned(m: Mgr, parent: Pid, t: Thread, extra: set<Vid>)
    requires Coherent(m) && ExitsOwned(m, extra) && parent in m.processes
    ensures ExitsOwned(Fork(m, parent, t, true).0, extra)
  {
    var m' := Fork(m, parent, t, true).0;
    forall p | p in m'.processes && m'.processes[p].status.Exiting? ensures exists v :: Owns(m', v, p, extra) {
      var v :| Owns(m, v, p, extra);
      assert Owns(m', v, p, extra);
    }
  }

  lemma ForkKeepsThreads(m: Mgr, parent: Pid, t: Thread)
    requires m.nextId !in m.processes && ThreadsKnown(m) && parent in m.processes && t !in m.lookup
    ensures ThreadsKnown(Fork(m, parent, t, true).0)
  {
  }

  lemma ForkKeeps(m: Mgr, parent: Pid, t: Thread, kernelOk: bool)
    requires Inv(m, {}) && t !in m.lookup
    ensures Inv(Fork(m, parent, t, kernelOk).0, {})
  {
    var m' := Fork(m, parent, t, kernelOk).0;
    SameStatesKeep(m, m');
    if parent in m.processes && kernelOk {
      ForkKeepsCoherent(m, parent, t);
      ForkKeepsTruthful(m, parent, t);
      ForkKeepsThreads(m, parent, t);
      ForkKeepsOwned(m, parent, t, {});
    } else {
      SameTable(m, m');
      SameOwnersKeep(m, m', {});
    }
  }

  /** Processes may gain threads and parked states, states may appear, the queue may grow. */
  lemma SameOwnersKeep(m: Mgr, m': Mgr, extra: set<Vid>)
    requires ExitsOwned(m, extra)
    requires m'.processes.Keys <= m.processes.Keys
    requires forall v :: v in m.states && m.states[v].AwaitingTerm? ==> v in m'.states && m'.states[v] == m.states[v]
    requires forall v :: v in m.awoken ==> v in m'.awoken
    requires forall p :: p in m'.processes && m'.processes[p].status.Exiting? ==>
               && m.processes[p].status.Exiting?
               && (m.processes[p].threads != [] ==> m'.processes[p].threads != [])
               && (forall v :: v in m.processes[p].awaitingTerm ==> v in m'.processes[p].awaitingTerm)
    ensures ExitsOwned(m', extra)
  {
    forall p | p in m'.processes && m'.processes[p].status.Exiting? ensures exists v :: Owns(m', v, p, extra) {
      var v :| Owns(m, v, p, extra);
      assert Owns(m', v, p, extra);
    }
  }

  lemma NewThreadKeepsLookup(m: Mgr, p: Pid, t: Thread)
    requires LookupMatches(m) && p in m.processes && t !in m.lookup
    ensures LookupMatches(NewThread(m, p, t, true).0)
  {
  }

  lemma NewThreadKeepsThreads(m: Mgr, p: Pid, t: Thread)
    requires ThreadsKnown(m) && p in m.processes && t !in m.lookup
    ensures ThreadsKnown(NewThread(m, p, t, true).0)
  {
    NewThreadKeepsLookup(m, p, t);
    assert ThreadlessEnding(NewThread(m, p, t, true).0, {});
  }

  lemma NewThreadKeeps(m: Mgr, p: Pid, t: Thread, kernelOk: bool)
    requires Inv(m, {}) && t !in m.lookup
    ensures Inv(NewThread(m, p, t, kernelOk).0, {})
  {
    if p in m.processes && kernelOk {
      var m' := NewThread(m, p, t, kernelOk).0;
      OneRecord(m, m', p);
      NewThreadKeepsThreads(m, p, t);
      SameStatesKeep(m, m');
      OneRecordOwned(m, m', p, {});
    }
  }

  lemma SetresuidMild(m: Mgr, p: Pid, ruid: Option<nat>, euid: Option<nat>, suid: Option<nat>)
    ensures Mild(m, Setresuid(m, p, ruid, euid, suid).0)
  {
    SetresuidShape(m, p, ruid, euid, suid);
    if p in m.processes {
      PutMild(m, p, m.processes[p].(creds := Setresuid(m, p, ruid, euid, suid).0.processes[p].creds));
    }
  }

  lemma SetresuidShape(m: Mgr, p: Pid, ruid: Option<nat>, euid: Option<nat>, suid: Option<nat>)
    ensures var m' := Setresuid(m, p, ruid, euid, suid).0;
            if p in m.processes
            then p in m'.processes && m' == Put(m, p, m.processes[p].(creds := m'.processes[p].creds))
            else m' == m
  {
    if p in m.processes { assert m == Put(m, p, m.processes[p]); }
  }

  lemma AttributesMild(m: Mgr, p: Pid)
    ensures Mild(m, DisableSetpgid(m, p).0)
    ensures Mild(m, SyncSigPctl(m, p).0)
  {
    if p in m.processes {
      PutMild(m, p, m.processes[p].(disabledSetpgid := true));
      PutMild(m, p, m.processes[p].(hasPctl := true));
    }
  }

  // ---------------------------------------------------------------- groups

  lemma {:induction false} WithoutNoDup(s: seq<nat>, x: nat)
    requires NoDup(s)
    ensures NoDup(Without(s, x))
  {
    if s != [] {
      assert forall i :: 0 <= i < |s| - 1 ==> s[1..][i] == s[i + 1];
      WithoutNoDup(s[1..], x);
      assert s[0] !in s[1..];
      var rest := Without(s[1..], x);
      assert s[0] !in rest;
      if s[0] != x {
        var r := [s[0]] + rest;
        forall i, j | 0 <= i < j < |r| ensures r[i] != r[j] {
          if i == 0 { assert r[j] in rest; } else { assert r[i] == rest[i - 1] && r[j] == rest[j - 1]; }
        }
      }
    }
  }

  /** Moving `p` changes the membership of nobody else, and no group is left empty. */
  lemma MoveGroupSpec(groups: map<Pid, seq<Pid>>, p: Pid, from: Pid, to: Pid)
    requires from in groups && from != to
    requires forall g :: g in groups ==> groups[g] != [] && NoDup(groups[g])
    requires forall g :: g in groups && p in groups[g] ==> g == from
    ensures var r := MoveGroup(groups, p, from, to);
            && to in r && p in r[to]
            && (forall g :: g in r ==> r[g] != [] && NoDup(r[g]))
            && (forall g :: g in r && p in r[g] ==> g == to)
            && (forall g, q :: q != p ==> ((g in r && q in r[g]) <==> (g in groups && q in groups[g])))
            && (to !in groups ==> r[to] == [p])
  {
    WithoutNoDup(groups[from], p);
  }

  lemma ChangePgidKeepsCoherent(m: Mgr, p: Pid, newPgid: Pid)
    requires Coherent(m) && p in m.processes
    requires m.processes[p].pgid != newPgid && newPgid < m.nextId && m.processes[p].sid != p
    ensures var proc := m.processes[p];
            Coherent(Put(m, p, proc.(pgid := newPgid)).(groups := MoveGroup(m.groups, p, proc.pgid, newPgid)))
  {
    var proc := m.processes[p];
    var m' := Put(m, p, proc.(pgid := newPgid)).(groups := MoveGroup(m.groups, p, proc.pgid, newPgid));
    MoveGroupSpec(m.groups, p, proc.pgid, newPgid);
    forall q | q in m'.processes ensures m'.processes[q].pgid in m'.groups && q in m'.groups[m'.processes[q].pgid] {
      if q != p { assert q in m.groups[m.processes[q].pgid]; }
    }
    forall g, q | g in m'.groups && q in m'.groups[g] ensures q in m'.processes && m'.processes[q].pgid == g {
      if q != p { assert g in m.groups && q in m.groups[g]; }
    }
  }

  lemma RegroupKeepsRest(m: Mgr, m': Mgr, p: Pid)
    requires Inv(m, {}) && p in m.processes && p in m'.processes
    requires m' == m.(groups := m'.groups, processes := m'.processes)
    requires m'.processes == m.processes[p := m.processes[p].(pgid := m'.processes[p].pgid, sid := m'.processes[p].sid)]
    requires Coherent(m')
    ensures Inv(m', {})
  {
    OneRecordTruthful(m, m', p);
    OneRecordThreads(m, m', p);
    SameStatesKeep(m, m');
    OneRecordOwned(m, m', p, {});
  }

  lemma ChangePgidKeeps(m: Mgr, p: Pid, parent: Option<Pid>, newPgid: Pid)
    requires Inv(m, {}) && p in m.processes
    requires parent.Some? ==> parent.value in m.processes && parent.value != p
    requires m.processes[p].pgid != newPgid && newPgid < m.nextId && m.processes[p].sid != p
    ensures ChangePgid(m, p, parent, newPgid).1 == Ok(())
    ensures Inv(ChangePgid(m, p, parent, newPgid).0, {})
  {
    var m1 := if parent.Some? then WakeWaiters(m, parent.value) else m;
    if parent.Some? {
      WakeWaitersMild(m, parent.value);
      MildKeeps(m, m1, {});
    }
    ChangePgidKeepsCoherent(m1, p, newPgid);
    RegroupKeepsRest(m1, ChangePgid(m, p, parent, newPgid).0, p);
  }

  lemma SetpgidKeeps(m: Mgr, caller: Pid, target: Pid, newPgid: Pid)
    requires Inv(m, {})
    ensures Inv(Setpgid(m, caller, target, newPgid).0, {})
  {
    if Setpgid(m, caller, target, newPgid).0 != m {
      var proc := m.processes[target];
      if newPgid in m.groups { assert m.groups[newPgid][0] in m.groups[newPgid]; }
      ChangePgidKeeps(m, target, if proc.ppid == target then None else Some(proc.ppid), newPgid);
    }
  }

  /** POSIX.1-2017 `setsid` succeeds exactly for a process other than init whose pid names no group. */
  lemma SetsidSucceedsExactly(m: Mgr, caller: Pid)
    requires Coherent(m)
    ensures Setsid(m, caller).1.Ok? <==> caller in m.processes && caller != INIT && caller !in m.groups
    ensures Setsid(m, caller).1.Err? ==> Setsid(m, caller).0 == m
  {
    if caller in m.groups { assert m.groups[caller][0] in m.groups[caller]; }
    if caller in m.processes { assert m.processes[caller].pgid in m.groups; }
  }

  lemma SetsidKeepsCoherent(m: Mgr, p: Pid)
    requires Coherent(m) && p in m.processes && m.processes[p].pgid == p
    ensures Coherent(Put(m, p, m.processes[p].(sid := p)))
  {
  }

  lemma LeadSessionKeeps(m: Mgr, p: Pid)
    requires Inv(m, {}) && p in m.processes && m.processes[p].pgid == p
    ensures Inv(Put(m, p, m.processes[p].(sid := p)), {})
  {
    SetsidKeepsCoherent(m, p);
    RegroupKeepsRest(m, Put(m, p, m.processes[p].(sid := p)), p);
  }

  lemma SetsidKeeps(m: Mgr, caller: Pid)
    requires Inv(m, {})
    ensures Inv(Setsid(m, caller).0, {})
  {
    var (m', res) := Setsid(m, caller);
    SetsidSucceedsExactly(m, caller);
    if res.Ok? {
      var proc := m.processes[caller];
      var parent := if proc.ppid in m.processes then Some(proc.ppid) else None;
      ChangePgidKeeps(m, caller, parent, caller);
      LeadSessionKeeps(ChangePgid(m, caller, parent, caller).0, caller);
    }
  }

  /** A successful `setsid` leaves the caller alone in a fresh group and session, and
      changes nobody else's group or session. */
  lemma SetsidIsFresh(m: Mgr, caller: Pid)
    requires Coherent(m) && Setsid(m, caller).1.Ok?
    ensures var m' := Setsid(m, caller).0;
            && caller !in m.groups && m'.groups[caller] == [caller]
            && m'.processes[caller].pgid == m'.processes[caller].sid == caller
            && forall q :: q in m.processes && q != caller ==>
                 && q in m'.processes
                 && m'.processes[q].pgid == m.processes[q].pgid && m'.processes[q].sid == m.processes[q].sid
  {
    SetsidSucceedsExactly(m, caller);
    SetsidMoves(m, caller);
    MoveGroupSpec(m.groups, caller, m.processes[caller].pgid, caller);
  }

  lemma SetsidMoves(m: Mgr, caller: Pid)
    requires Coherent(m) && Setsid(m, caller).1.Ok?
    ensures caller in m.processes && m.processes[caller].pgid in m.groups
    ensures var m' := Setsid(m, caller).0;
            && m'.groups == MoveGroup(m.groups, caller, m.processes[caller].pgid, caller)
            && m'.processes.Keys == m.processes.Keys
            && m'.processes[caller].pgid == m'.processes[caller].sid == caller
            && forall q :: q in m.processes && q != caller ==>
                 m'.processes[q].pgid == m.processes[q].pgid && m'.processes[q].sid == m.processes[q].sid
  {
    SetsidIsChange(m, caller);
    var proc := m.processes[caller];
    ChangePgidMoves(m, caller, if proc.ppid in m.processes then Some(proc.ppid) else None, caller);
  }

  lemma SetsidIsChange(m: Mgr, caller: Pid)
    requires Coherent(m) && Setsid(m, caller).1.Ok?
    ensures caller in m.processes && m.processes[caller].pgid in m.groups && m.processes[caller].ppid != caller
    ensures var parent := if m.processes[caller].ppid in m.processes then Some(m.processes[caller].ppid) else None;
            var m1 := ChangePgid(m, caller, parent, caller).0;
            caller in m1.processes && Setsid(m, caller).0 == Put(m1, caller, m1.processes[caller].(sid := caller))
  {
    SetsidSucceedsExactly(m, caller);
  }

  lemma ChangePgidMoves(m: Mgr, p: Pid, parent: Option<Pid>, g: Pid)
    requires p in m.processes && (parent.Some? ==> parent.value in m.processes && parent.value != p)
    requires m.processes[p].pgid in m.groups
    ensures var m' := ChangePgid(m, p, parent, g).0;
            && m'.groups == MoveGroup(m.groups, p, m.processes[p].pgid, g)
            && m'.processes.Keys == m.processes.Keys && m'.processes[p].pgid == g
            && forall q :: q in m.processes && q != p ==>
                 m'.processes[q].pgid == m.processes[q].pgid && m'.processes[q].sid == m.processes[q].sid
  {
  }
}
