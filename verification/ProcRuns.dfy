/** Whole runs of the process manager: every sequence of requests, thread deaths and
    wake-ups, in any order, keeps the invariant. */
module ProcRuns {
  import opened Wrappers
  import opened ProcTable
  import opened ProcInvariants
  import opened ProcSteps
  import opened ProcExit

  // ---------------------------------------------------------------- starting an exit

  lemma ExtraGrows(m: Mgr, v: Vid)
    requires Inv(m, {})
    ensures Inv(m, {v})
  {
    forall p | p in m.processes && m.processes[p].status.Exiting? ensures exists u :: Owns(m, u, p, {v}) {
      var u :| Owns(m, u, p, {});
      assert Owns(m, u, p, {v});
    }
  }

  lemma ParseExitValid(raw: U16)
    ensures ParseExit(raw).Some? ==> ValidExit(ParseExit(raw).value)
  {
  }

  lemma DeathIsAnExit(d: Death)
    ensures ParseExit(RawStatus(d)).Some? && ValidExit(ParseExit(RawStatus(d)).value)
  {
  }

  lemma AcceptTruthful(m: Mgr, p: Pid, how: Exit, v: Vid, owner: Option<nat>)
    requires Truthful(m) && Numbered(m) && p in m.processes && !Ending(m.processes[p].status) && ValidExit(how)
    ensures Truthful(AcceptExit(m, p, how, v, owner))
  {
    var m' := AcceptExit(m, p, how, v, owner);
    forall q, w | q in m'.processes && w in m'.processes[q].waitpid
      ensures EventTruthful(m', w, m'.processes[q].waitpid[w].event)
    {
      assert EventTruthful(m, w, m.processes[q].waitpid[w].event);
    }
  }

  lemma AcceptThreads(m: Mgr, p: Pid, how: Exit, v: Vid, owner: Option<nat>)
    requires LookupMatches(m) && ThreadlessEnding(m, {p}) && p in m.processes
    ensures ThreadsKnown(AcceptExit(m, p, how, v, owner))
  {
  }

  lemma AcceptStates(m: Mgr, p: Pid, how: Exit, v: Vid, owner: Option<nat>)
    requires StatesNumbered(m) && p in m.processes
    requires v.Internal? ==> v.n < m.nextInternal
    requires owner == if v.Kernel? then Some(v.id) else None
    ensures StatesNumbered(AcceptExit(m, p, how, v, owner))
  {
    var m' := AcceptExit(m, p, how, v, owner);
    forall u | u in m'.states ensures StateNumbered(m', u, m'.states[u]) {
      if u != v { assert StateNumbered(m, u, m.states[u]); }
    }
  }

  lemma AcceptOwned(m: Mgr, p: Pid, how: Exit, v: Vid, owner: Option<nat>)
    requires ExitsOwned(m, {}) && p in m.processes && v !in m.states
    ensures ExitsOwned(AcceptExit(m, p, how, v, owner), {v})
  {
    var m' := AcceptExit(m, p, how, v, owner);
    forall q | q in m'.processes && m'.processes[q].status.Exiting? ensures exists u :: Owns(m', u, q, {v}) {
      if q == p {
        assert Owns(m', v, p, {v});
      } else {
        var u :| Owns(m, u, q, {});
        assert Owns(m', u, q, {v});
      }
    }
  }

  /** The part of the invariant that holds while `p` may have lost its last thread. */
  ghost predicate InvBut(m: Mgr, p: Pid)
  {
    && Coherent(m) && Truthful(m) && LookupMatches(m) && ThreadlessEnding(m, {p})
    && StatesNumbered(m) && ExitsOwned(m, {})
  }

  lemma AcceptExitKeeps(m: Mgr, p: Pid, how: Exit, v: Vid, owner: Option<nat>)
    requires InvBut(m, p) && p in m.processes && !Ending(m.processes[p].status) && ValidExit(how)
    requires v !in m.states && (v.Internal? ==> v.n < m.nextInternal)
    requires owner == if v.Kernel? then Some(v.id) else None
    ensures Inv(AcceptExit(m, p, how, v, owner), {v})
  {
    OneRecordCoherent(m, AcceptExit(m, p, how, v, owner), p);
    AcceptTruthful(m, p, how, v, owner);
    AcceptThreads(m, p, how, v, owner);
    AcceptStates(m, p, how, v, owner);
    AcceptOwned(m, p, how, v, owner);
  }

  lemma ExitAcceptedKeeps(m: Mgr, p: Pid, how: Exit, v: Vid, owner: Option<nat>, c: Choice)
    requires InvBut(m, p) && p in m.processes && !Ending(m.processes[p].status) && ValidExit(how)
    requires v !in m.states && (v.Internal? ==> v.n < m.nextInternal)
    requires owner == if v.Kernel? then Some(v.id) else None
    ensures Inv(WorkOnTerm(AcceptExit(m, p, how, v, owner), v, p, owner, c).0, {})
  {
    AcceptExitKeeps(m, p, how, v, owner);
    WorkOnTermKeeps(AcceptExit(m, p, how, v, owner), v, p, owner, c);
  }

  lemma ExitStartKeeps(m: Mgr, p: Pid, how: Option<Exit>, v: Vid, owner: Option<nat>, c: Choice)
    requires Inv(m, {}) && (how.Some? ==> ValidExit(how.value))
    requires v !in m.states && (v.Internal? ==> v.n < m.nextInternal)
    requires owner == if v.Kernel? then Some(v.id) else None
    ensures Inv(ExitStart(m, p, how, v, owner, c).0, {})
  {
    if p in m.processes && !Ending(m.processes[p].status) && how.Some? {
      ExitAcceptedKeeps(m, p, how.value, v, owner, c);
    }
  }

  ghost predicate Outstanding(m: Mgr, tag: nat)
  {
    Kernel(tag) in m.states && !m.states[Kernel(tag)].Placeholder?
  }

  lemma ForgetAnsweredKeeps(m: Mgr, tag: nat)
    requires Inv(m, {}) && !Outstanding(m, tag)
    ensures Inv(DropState(m, Kernel(tag)), {})
  {
    if Kernel(tag) in m.states {
      ExtraGrows(m, Kernel(tag));
      RetireKeeps(m, Kernel(tag), DropState(m, Kernel(tag)));
    } else {
      assert DropState(m, Kernel(tag)) == m;
    }
  }

  lemma ExitRequestKeeps(m: Mgr, p: Pid, raw: U16, tag: nat, c: Choice)
    requires Inv(m, {}) && !Outstanding(m, tag)
    ensures Inv(ExitRequest(m, p, raw, tag, c).0, {})
  {
    ForgetAnsweredKeeps(m, tag);
    ParseExitValid(raw);
    ExitStartKeeps(DropState(m, Kernel(tag)), p, ParseExit(raw), Kernel(tag), Some(tag), c);
  }

  lemma AddStateKeeps(m: Mgr, v: Vid, s: Pending)
    requires Inv(m, {}) && StateNumbered(m, v, s)
    requires v in m.states ==> !m.states[v].AwaitingTerm?
    ensures Inv(SetState(m, v, s), {})
  {
    var m' := SetState(m, v, s);
    SameTable(m, m');
    forall u | u in m'.states ensures StateNumbered(m', u, m'.states[u]) {
      if u != v { assert StateNumbered(m, u, m.states[u]); }
    }
    SameOwnersKeep(m, m', {});
  }

  lemma WaitRequestKeeps(m: Mgr, p: Pid, target: Target, flags: WaitFlags, tag: nat, c: Choice)
    requires Inv(m, {}) && !Outstanding(m, tag)
    ensures Inv(WaitRequest(m, p, target, flags, tag, c).0, {})
  {
    var v, s := Kernel(tag), AwaitingStatusChange(p, target, flags, tag);
    AddStateKeeps(m, v, s);
    ExtraGrows(SetState(m, v, s), v);
    WorkOnKeeps(SetState(m, v, s), v, c);
  }

  // ---------------------------------------------------------------- cancellation

  /** The exit that the cancelled request owned is owned by the new internal id. */
  lemma HandOverOwned(m: Mgr, from: Vid, v: Vid, p: Pid)
    requires ExitsOwned(m, {}) && from in m.states && v != from
    requires m.states[from].AwaitingTerm? && m.states[from].pid == p
    requires v !in m.states
    ensures ExitsOwned(SetState(DropState(m, from), v, AwaitingTerm(p, None)).(awoken := m.awoken + [v],
                       nextInternal := m.nextInternal + 1), {})
  {
    var m' := SetState(DropState(m, from), v, AwaitingTerm(p, None)).(awoken := m.awoken + [v],
                nextInternal := m.nextInternal + 1);
    forall q | q in m'.processes && m'.processes[q].status.Exiting? ensures exists u :: Owns(m', u, q, {}) {
      var u :| Owns(m, u, q, {});
      if q == p { assert Owns(m', v, q, {}); } else { assert Owns(m', u, q, {}); }
    }
  }

  lemma CancelKeeps(m: Mgr, tag: nat)
    requires Inv(m, {})
    ensures Inv(Cancel(m, tag).0, {})
  {
    if Kernel(tag) in m.states {
      var s := m.states[Kernel(tag)];
      if s.AwaitingTerm? {
        var v, m' := Internal(m.nextInternal), Cancel(m, tag).0;
        FreshInternal(m);
        HandOverOwned(m, Kernel(tag), v, s.pid);
        SameTable(m, m');
        assert StateNumbered(m, Kernel(tag), s);
        forall u | u in m'.states ensures StateNumbered(m', u, m'.states[u]) {
          if u != v { assert StateNumbered(m, u, m.states[u]); }
        }
      } else {
        ExtraGrows(m, Kernel(tag));
        RetireKeeps(m, Kernel(tag), DropState(m, Kernel(tag)));
      }
    }
  }

  // ---------------------------------------------------------------- thread death

  lemma LoseThreadLookup(m: Mgr, t: Thread)
    requires ThreadsKnown(m) && t in m.lookup
    ensures LookupMatches(LoseThread(m, t)) && ThreadlessEnding(LoseThread(m, t), {m.lookup[t]})
  {
  }

  lemma LoseThreadKeepsRest(m: Mgr, t: Thread)
    requires Inv(m, {}) && t in m.lookup
    ensures var m1 := LoseThread(m, t);
            Coherent(m1) && Truthful(m1) && StatesNumbered(m1)
  {
    var m1 := LoseThread(m, t);
    OneRecord(m, m1, m.lookup[t]);
    SameStatesKeep(m, m1);
  }

  /** The states parked with an exiting process move to the queue, so they still own its exit. */
  lemma WakeParkedOwned(m: Mgr, t: Thread)
    requires ExitsOwned(m, {}) && t in m.lookup && m.lookup[t] in m.processes
    ensures ExitsOwned(WakeParked(LoseThread(m, t), m.lookup[t]), {})
  {
    var m' := WakeParked(LoseThread(m, t), m.lookup[t]);
    forall q | q in m'.processes && m'.processes[q].status.Exiting? ensures exists u :: Owns(m', u, q, {}) {
      var u :| Owns(m, u, q, {});
      assert Owns(m', u, q, {});
    }
  }

  lemma WakeParkedRest(m: Mgr, p: Pid)
    requires Coherent(m) && Truthful(m) && ThreadsKnown(m) && StatesNumbered(m) && p in m.processes
    ensures var m' := WakeParked(m, p);
            Coherent(m') && Truthful(m') && ThreadsKnown(m') && StatesNumbered(m')
  {
    var m' := WakeParked(m, p);
    OneRecord(m, m', p);
    OneRecordThreads(m, m', p);
    SameStatesKeep(m, m');
  }

  lemma ThreadlessWhenEnding(m: Mgr, p: Pid)
    requires ThreadlessEnding(m, {p})
    requires p in m.processes ==> Ending(m.processes[p].status) || m.processes[p].threads != []
    ensures ThreadlessEnding(m, {})
  {
  }

  lemma WakeParkedKeeps(m: Mgr, t: Thread)
    requires Inv(m, {}) && t in m.lookup && m.processes[m.lookup[t]].status.Exiting?
    ensures Inv(WakeParked(LoseThread(m, t), m.lookup[t]), {})
  {
    LoseThreadLookup(m, t);
    LoseThreadKeepsRest(m, t);
    ThreadlessWhenEnding(LoseThread(m, t), m.lookup[t]);
    WakeParkedRest(LoseThread(m, t), m.lookup[t]);
    WakeParkedOwned(m, t);
  }

  lemma LoseThreadOwned(m: Mgr, t: Thread)
    requires Inv(m, {}) && t in m.lookup && !m.processes[m.lookup[t]].status.Exiting?
    ensures InvBut(LoseThread(m, t), m.lookup[t])
  {
    LoseThreadLookup(m, t);
    LoseThreadKeepsRest(m, t);
    SameOwnersKeep(m, LoseThread(m, t), {});
  }

  lemma FreshInternal(m: Mgr)
    requires StatesNumbered(m)
    ensures Internal(m.nextInternal) !in m.states
  {
    forall v | v in m.states ensures v != Internal(m.nextInternal) {
      assert StateNumbered(m, v, m.states[v]);
    }
  }

  lemma TakeInternalKeeps(m: Mgr, p: Pid)
    requires InvBut(m, p)
    ensures InvBut(TakeInternal(m), p)
  {
    var m' := TakeInternal(m);
    SameRecords(m, m');
    SameStatesKeep(m, m');
    SameOwnersKeep(m, m', {});
  }

  lemma InvButEnding(m: Mgr, p: Pid)
    requires InvBut(m, p) && (p in m.processes ==> Ending(m.processes[p].status) || m.processes[p].threads != [])
    ensures Inv(m, {})
  {
    ThreadlessWhenEnding(m, p);
  }

  lemma LoseLastThread(m: Mgr, t: Thread)
    requires Inv(m, {}) && t in m.lookup && !m.processes[m.lookup[t]].status.Exiting?
    ensures InvBut(TakeInternal(LoseThread(m, t)), m.lookup[t])
    ensures Internal(m.nextInternal) !in m.states
  {
    LoseThreadOwned(m, t);
    TakeInternalKeeps(LoseThread(m, t), m.lookup[t]);
    FreshInternal(m);
  }

  /** An exit that starts while `p` has no thread left: accepted, or `p` was ending anyway. */
  lemma ThreadlessExitKeeps(m: Mgr, p: Pid, how: Exit, v: Vid, c: Choice)
    requires InvBut(m, p) && p in m.processes && ValidExit(how)
    requires v !in m.states && v.Internal? && v.n < m.nextInternal
    ensures Inv(ExitStart(m, p, Some(how), v, None, c).0, {})
  {
    if Ending(m.processes[p].status) {
      InvButEnding(m, p);
    } else {
      ExitAcceptedKeeps(m, p, how, v, None, c);
    }
  }

  lemma SurvivorKeeps(m: Mgr, t: Thread)
    requires Inv(m, {}) && t in m.lookup && !m.processes[m.lookup[t]].status.Exiting?
    requires LoseThread(m, t).processes[m.lookup[t]].threads != []
    ensures Inv(LoseThread(m, t), {})
  {
    LoseThreadOwned(m, t);
    InvButEnding(LoseThread(m, t), m.lookup[t]);
  }

  lemma ThreadEventKeeps(m: Mgr, t: Thread, d: Death, c: Choice)
    requires Inv(m, {})
    ensures Inv(ThreadEvent(m, t, d, c), {})
  {
    if t in m.lookup && !d.Spurious? {
      var p, m1 := m.lookup[t], LoseThread(m, t);
      if m.processes[p].status.Exiting? {
        WakeParkedKeeps(m, t);
      } else {
        if m1.processes[p].threads == [] {
          LoseLastThread(m, t);
          DeathIsAnExit(d);
          ThreadlessExitKeeps(TakeInternal(m1), p, ParseExit(RawStatus(d)).value, Internal(m.nextInternal), c);
        } else {
          SurvivorKeeps(m, t);
        }
      }
    }
  }

  lemma WakeNextKeeps(m: Mgr, c: Choice)
    requires Inv(m, {}) && m.awoken != []
    ensures Inv(WakeNext(m, c).0, {})
  {
    var v, m1 := m.awoken[0], m.(awoken := m.awoken[1..]);
    assert Inv(m1, {v}) by {
      SameTable(m, m1);
      SameStatesKeep(m, m1);
      forall p | p in m1.processes && m1.processes[p].status.Exiting? ensures exists u :: Owns(m1, u, p, {v}) {
        var u :| Owns(m, u, p, {});
        assert Owns(m1, u, p, {v});
      }
    }
    if v in m.states {
      WorkOnKeeps(m1, v, c);
    } else {
      forall p | p in m1.processes && m1.processes[p].status.Exiting? ensures exists u :: Owns(m1, u, p, {}) {
        var u :| Owns(m1, u, p, {v});
        assert Owns(m1, u, p, {});
      }
    }
  }

  // ---------------------------------------------------------------- runs

  datatype Action =
    | DoFork(parent: Pid, t: Thread, kernelOk: bool)
    | DoNewThread(pid: Pid, t: Thread, kernelOk: bool)
    | DoSetsid(pid: Pid)
    | DoSetpgid(caller: Pid, pid: Pid, pgid: Pid)
    | DoSetresuid(pid: Pid, ruid: Option<nat>, euid: Option<nat>, suid: Option<nat>)
    | DoDisableSetpgid(pid: Pid)
    | DoSyncSigPctl(pid: Pid)
    | DoKill(caller: Pid, target: KillTarget, sig: nat, choice: Choice)
    | DoExit(pid: Pid, raw: U16, tag: nat, choice: Choice)
    | DoWait(pid: Pid, on: Target, flags: WaitFlags, tag: nat, choice: Choice)
    | DoCancel(tag: nat)
    | DoThreadEvent(t: Thread, death: Death, choice: Choice)
    | DoWake(choice: Choice)

  /** New threads have fresh descriptors, a tag is not reused while its request is open,
      and hash-map iteration visits every entry once. */
  ghost predicate Enabled(m: Mgr, a: Action)
  {
    match a
    case DoFork(_, t, _) => t !in m.lookup
    case DoNewThread(_, t, _) => t !in m.lookup
    case DoKill(_, _, _, c) => ValidChoice(m, c)
    case DoExit(_, _, tag, c) => !Outstanding(m, tag) && ValidChoice(m, c)
    case DoWait(_, _, _, tag, c) => !Outstanding(m, tag) && ValidChoice(m, c)
    case DoThreadEvent(_, _, c) => ValidChoice(m, c)
    case DoWake(c) => m.awoken != [] && ValidChoice(m, c)
    case _ => true
  }

  ghost function Next(m: Mgr, a: Action): (r: (Mgr, Reply))
    requires Enabled(m, a)
  {
    match a
    case DoFork(p, t, ok) => (Fork(m, p, t, ok).0, NoReply)
    case DoNewThread(p, t, ok) => (NewThread(m, p, t, ok).0, NoReply)
    case DoSetsid(p) => (Setsid(m, p).0, NoReply)
    case DoSetpgid(caller, p, g) => (Setpgid(m, caller, p, g).0, NoReply)
    case DoSetresuid(p, r, e, s) => (Setresuid(m, p, r, e, s).0, NoReply)
    case DoDisableSetpgid(p) => (DisableSetpgid(m, p).0, NoReply)
    case DoSyncSigPctl(p) => (SyncSigPctl(m, p).0, NoReply)
    case DoKill(caller, target, sig, c) => (Kill(m, caller, target, sig, c), NoReply)
    case DoExit(p, raw, tag, c) => ExitRequest(m, p, raw, tag, c)
    case DoWait(p, target, flags, tag, c) => WaitRequest(m, p, target, flags, tag, c)
    case DoCancel(tag) => Cancel(m, tag)
    case DoThreadEvent(t, d, c) => (ThreadEvent(m, t, d, c), NoReply)
    case DoWake(c) => WakeNext(m, c)
  }

  lemma StepKeeps(m: Mgr, a: Action)
    requires Inv(m, {}) && Enabled(m, a)
    ensures Inv(Next(m, a).0, {})
  {
    match a {
      case DoFork(p, t, ok) => ForkKeeps(m, p, t, ok);
      case DoNewThread(p, t, ok) => NewThreadKeeps(m, p, t, ok);
      case DoSetsid(p) => SetsidKeeps(m, p);
      case DoSetpgid(caller, p, g) => SetpgidKeeps(m, caller, p, g);
      case DoSetresuid(p, r, e, s) => SetresuidMild(m, p, r, e, s); MildKeeps(m, Next(m, a).0, {});
      case DoDisableSetpgid(p) => AttributesMild(m, p); MildKeeps(m, Next(m, a).0, {});
      case DoSyncSigPctl(p) => AttributesMild(m, p); MildKeeps(m, Next(m, a).0, {});
      case DoKill(caller, target, sig, c) => KillMild(m, caller, target, sig, c); MildKeeps(m, Next(m, a).0, {});
      case DoExit(p, raw, tag, c) => ExitRequestKeeps(m, p, raw, tag, c);
      case DoWait(p, target, flags, tag, c) => WaitRequestKeeps(m, p, target, flags, tag, c);
      case DoCancel(tag) => CancelKeeps(m, tag);
      case DoThreadEvent(t, d, c) => ThreadEventKeeps(m, t, d, c);
      case DoWake(c) => WakeNextKeeps(m, c);
    }
  }

  datatype RunResult = At(m: Mgr) | Illegal

  ghost function Extend(r: RunResult, a: Action): RunResult
  {
    if r.At? && Enabled(r.m, a) then At(Next(r.m, a).0) else Illegal
  }

  /** The manager after boot (init exists, with one thread) and then `actions`. */
  ghost function Run(t: Thread, actions: seq<Action>): (r: RunResult)
  {
    if actions == [] then At(BootState(t))
    else Extend(Run(t, actions[..|actions| - 1]), actions[|actions| - 1])
  }

  lemma BootKeeps(t: Thread)
    ensures Inv(BootState(t), {})
  {
  }

  lemma {:induction false} RunKeeps(t: Thread, actions: seq<Action>)
    ensures Run(t, actions).At? ==> Inv(Run(t, actions).m, {})
  {
    if actions == [] {
      BootKeeps(t);
    } else {
      var before, a := Run(t, actions[..|actions| - 1]), actions[|actions| - 1];
      RunKeeps(t, actions[..|actions| - 1]);
      if before.At? && Enabled(before.m, a) { StepKeeps(before.m, a); }
    }
  }
}
