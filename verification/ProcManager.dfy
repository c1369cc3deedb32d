/** The process manager as it runs: an object that updates its tables in place, with the
    loops of the source, proved against the functions of `ProcTable`. */
module ProcManager {
  import opened Wrappers
  import opened ProcTable
  import opened ProcInvariants
  import opened ProcRuns
  import opened ProcTheorems
  import T = ProcTable

  /** `cs` drives the wake-up loop from `m` to `m'`, one queue entry per choice. */
  ghost predicate WakeRun(m: Mgr, cs: seq<Choice>, m': Mgr)
    decreases |cs|
  {
    if cs == [] then m' == m
    else m.awoken != [] && ValidChoice(m, cs[0]) && WakeRun(WakeNext(m, cs[0]).0, cs[1..], m')
  }

  lemma {:induction false} WakeRunSnoc(m: Mgr, cs: seq<Choice>, m1: Mgr, c: Choice)
    requires WakeRun(m, cs, m1) && m1.awoken != [] && ValidChoice(m1, c)
    ensures WakeRun(m, cs + [c], WakeNext(m1, c).0)
    decreases |cs|
  {
    if cs == [] {
      assert [c][1..] == [];
      assert cs + [c] == [c];
    } else {
      WakeRunSnoc(WakeNext(m, cs[0]).0, cs[1..], m1, c);
      assert (cs + [c])[1..] == cs[1..] + [c];
    }
  }

  lemma {:induction false} WakeRunKeeps(m: Mgr, cs: seq<Choice>, m': Mgr)
    requires WakeRun(m, cs, m') && Inv(m, {})
    ensures Inv(m', {})
    decreases |cs|
  {
    if cs != [] {
      WakeNextKeeps(m, cs[0]);
      WakeRunKeeps(WakeNext(m, cs[0]).0, cs[1..], m');
    }
  }

  /** The iteration order of a table whose keys are `keys`. */
  method Enumerate(keys: set<Pid>) returns (order: seq<Pid>)
    ensures Enumerates(order, keys)
  {
    order := [];
    var rest := keys;
    while rest != {}
      invariant rest <= keys && NoDup(order)
      invariant forall x :: x in order <==> x in keys && x !in rest
      decreases rest
    {
      var x :| x in rest;
      order, rest := order + [x], rest - {x};
    }
  }

  method LeastKey(keys: set<Pid>) returns (w: Pid)
    requires keys != {}
    ensures IsLeast(w, keys)
  {
    w :| w in keys;
    var rest := keys - {w};
    while rest != {}
      invariant w in keys && rest <= keys
      invariant forall x :: x in keys && x !in rest ==> w <= x
      decreases rest
    {
      var x :| x in rest;
      if x < w { w := x; }
      rest := rest - {x};
    }
  }

  lemma {:induction false} ChildrenOfSnoc(m: Mgr, p: Pid, order: seq<Pid>, k: Pid)
    ensures ChildrenOf(m, p, order + [k]) == ChildrenOf(m, p, order)
            + if k in m.processes && k != INIT && m.processes[k].ppid == p then [k] else []
    decreases |order|
  {
    if order == [] {
      assert order + [k] == [k] && [k][1..] == [];
    } else {
      assert (order + [k])[1..] == order[1..] + [k];
      ChildrenOfSnoc(m, p, order[1..], k);
    }
  }

  class ProcScheme {
    var processes: map<Pid, Process>
    var groups: map<Pid, seq<Pid>>
    var lookup: map<Thread, Pid>
    var nextId: Pid
    var nextInternal: nat
    var states: map<Vid, Pending>
    /** The batch the wake-up loop is working through. */
    var draining: seq<Vid>
    /** Where operations enqueue what they wake. */
    var queue: seq<Vid>
    ghost var accepted: map<Pid, Exit>

    ghost function Model(): (m: Mgr)
      reads this
    {
      Mgr(processes, groups, lookup, nextId, nextInternal, states, draining + queue, accepted)
    }

    constructor Boot(t: Thread)
      ensures Model() == BootState(t)
    {
      var root := Creds(0, 0, 0);
      processes := map[INIT := Process([t], INIT, INIT, INIT, root, PossiblyRunnable, false, [], map[], [], false)];
      groups := map[INIT := [INIT]];
      lookup := map[t := INIT];
      nextId, nextInternal := 2, 1;
      states, draining, queue, accepted := map[], [], [], map[];
    }

    method Fork(parent: Pid, t: Thread, kernelOk: bool) returns (r: Result<Pid>)
      modifies this
      ensures (Model(), r) == old(T.Fork(Model(), parent, t, kernelOk))
    {
      var child := nextId;
      nextId := nextId + 1;
      if parent !in processes { return Err(EBADFD); }
      if !kernelOk { return Err(EIO); }
      var par := processes[parent];
      var proc := Process([t], parent, par.pgid, par.sid, par.creds, PossiblyRunnable, false, [], map[], [], false);
      if par.pgid in groups {
        groups := groups[par.pgid := groups[par.pgid] + [child]];
      }
      processes := processes[child := proc];
      lookup := lookup[t := child];
      return Ok(child);
    }

    method WakeWaiters(p: Pid)
      requires p in processes
      modifies this
      ensures Model() == old(T.WakeWaiters(Model(), p))
      ensures draining == old(draining)
    {
      queue := queue + processes[p].waiting;
      processes := processes[p := processes[p].(waiting := [])];
    }

    method ChangePgid(p: Pid, parent: Option<Pid>, newPgid: Pid) returns (r: Result<()>)
      requires p in processes
      requires parent.Some? ==> parent.value in processes && parent.value != p
      modifies this
      ensures (Model(), r) == old(T.ChangePgid(Model(), p, parent, newPgid))
    {
      var oldPgid := processes[p].pgid;
      if parent.Some? { WakeWaiters(parent.value); }
      if oldPgid !in groups { return Err(ESRCH); }
      var left := Without(groups[oldPgid], p);
      if left == [] {
        groups := groups - {oldPgid};
      } else {
        groups := groups[oldPgid := left];
      }
      groups := groups[newPgid := (if newPgid in groups then groups[newPgid] else []) + [p]];
      processes := processes[p := processes[p].(pgid := newPgid)];
      return Ok(());
    }

    method Setsid(caller: Pid, order: seq<Pid>) returns (r: Result<()>)
      requires Enumerates(order, processes.Keys)
      modifies this
      ensures (Model(), r) == old(T.Setsid(Model(), caller))
    {
      var i := 0;
      while i < |order|
        invariant 0 <= i <= |order|
        invariant forall p :: p in order[..i] && p != caller ==> processes[p].pgid != caller
        invariant Model() == old(Model())
      {
        if order[i] != caller && processes[order[i]].pgid == caller {
          assert OthersInGroup(Model(), caller);
          return Err(EPERM);
        }
        i := i + 1;
      }
      assert order[..i] == order;
      assert !OthersInGroup(Model(), caller);
      if caller !in processes { return Err(ESRCH); }
      var proc := processes[caller];
      if proc.ppid == caller { return Err(ESRCH); }
      if proc.pgid == caller { return Err(EPERM); }
      r := ChangePgid(caller, if proc.ppid in processes then Some(proc.ppid) else None, caller);
      if r.Ok? {
        processes := processes[caller := processes[caller].(sid := caller)];
      }
    }

    method Setpgid(caller: Pid, target: Pid, newPgid: Pid) returns (r: Result<()>)
      modifies this
      ensures (Model(), r) == old(T.Setpgid(Model(), caller, target, newPgid))
    {
      if caller !in processes || target !in processes { return Err(ESRCH); }
      var proc := processes[target];
      if proc.ppid != caller && target != caller { return Err(ESRCH); }
      if proc.ppid != target && proc.ppid !in processes { return Err(ESRCH); }
      if proc.sid == target { return Err(EPERM); }
      if processes[caller].sid != proc.sid { return Err(EPERM); }
      if newPgid != target && newPgid !in groups { return Err(EPERM); }
      if proc.ppid == caller && proc.disabledSetpgid { return Err(EACCES); }
      if proc.pgid == newPgid { return Ok(()); }
      r := ChangePgid(target, if proc.ppid == target then None else Some(proc.ppid), newPgid);
    }

    /** Whether every member of the group votes "orphaned". */
    method PgrpIsOrphaned(g: Pid) returns (r: Option<bool>)
      ensures r == Orphaned(Model(), g)
    {
      if g !in groups { return None; }
      var still, i := true, 0;
      var members := groups[g];
      while i < |members|
        invariant 0 <= i <= |members|
        invariant still <==> forall p :: p in members[..i] && p in processes ==> OrphanVote(Model(), p)
      {
        var p := members[i];
        assert members[..i + 1] == members[..i] + [p];
        if p in processes && processes[p].ppid in processes {
          var proc, parent := processes[p], processes[processes[p].ppid];
          still := still && (parent.pgid == proc.pgid || parent.sid != proc.sid);
        }
        i := i + 1;
      }
      assert members[..i] == members;
      return Some(still);
    }

    method FileEvent(parent: Pid, child: Pid, pgid: Pid, event: Event)
      requires parent in processes
      modifies this
      ensures Model() == old(T.FileEvent(Model(), parent, child, pgid, event))
      ensures draining == old(draining)
    {
      var proc := processes[parent];
      var key := if child in proc.waitpid then proc.waitpid[child].pgid else pgid;
      processes := processes[parent := proc.(waitpid := proc.waitpid[child := Entry(key, event)])];
      WakeWaiters(parent);
    }

    method SendSig(caller: Pid, target: Pid, sig: nat, c: Choice) returns (r: Result<()>)
      modifies this
      ensures (Model(), r) == old(T.SendSig(Model(), caller, target, sig, c))
      ensures draining == old(draining)
    {
      if sig > 64 { return Err(EINVAL); }
      if target !in processes || caller !in processes { return Err(ESRCH); }
      var proc := processes[target];
      if !MaySignal(processes[caller].creds, proc.creds) { return Err(EPERM); }
      if sig == 0 || Ending(proc.status) { return Ok(()); }
      if !proc.hasPctl { return Err(ESRCH); }
      if sig == SIGCONT && proc.status.Stopped? {
        r := ChangeRunState(target, PossiblyRunnable, Continued);
        return;
      }
      if sig == SIGSTOP || (IsTerminalStop(sig) && target in c.stops) {
        if IsTerminalStop(sig) {
          var orphaned := PgrpIsOrphaned(proc.pgid);
          if orphaned != Some(false) { return Ok(()); }
        }
        r := ChangeRunState(target, Stopped(sig), StoppedBy(sig));
        return;
      }
      if sig == SIGKILL || target !in c.undeliverable { return Ok(()); }
      return Err(c.undeliverable[target]);
    }

    method ChangeRunState(p: Pid, status: Status, event: Event) returns (r: Result<()>)
      requires p in processes
      modifies this
      ensures (Model(), r) == old(T.ChangeRunState(Model(), p, status, event))
      ensures draining == old(draining)
    {
      var proc := processes[p];
      processes := processes[p := proc.(status := status)];
      if proc.ppid !in processes { return Err(ESRCH); }
      FileEvent(proc.ppid, p, proc.pgid, event);
      return Ok(());
    }

    method SendMany(caller: Pid, group: Option<Pid>, sig: nat, c: Choice)
      modifies this
      ensures Model() == old(T.SendMany(Model(), caller, group, sig, c.procs, c))
    {
      var i := 0;
      while i < |c.procs|
        invariant 0 <= i <= |c.procs|
        invariant T.SendMany(Model(), caller, group, sig, c.procs[i..], c)
               == old(T.SendMany(Model(), caller, group, sig, c.procs, c))
      {
        var p := c.procs[i];
        assert c.procs[i..][1..] == c.procs[i + 1..];
        if p in processes && (group.None? || processes[p].pgid == group.value) {
          var _ := SendSig(caller, p, sig, c);
        }
        i := i + 1;
      }
    }

    method ReparentChildren(kids: seq<Pid>)
      requires INIT in processes
      requires forall k :: k in kids ==> k in processes && k != INIT
      modifies this
      ensures Model() == old(T.Reparent(Model(), kids))
      ensures draining == old(draining)
    {
      var i := 0;
      while i < |kids|
        invariant 0 <= i <= |kids| && INIT in processes && draining == old(draining)
        invariant forall k :: k in kids ==> k in processes && k != INIT
        invariant T.Reparent(Model(), kids[i..]) == old(T.Reparent(Model(), kids))
      {
        var k := kids[i];
        ghost var before := Model();
        assert kids[i..][1..] == kids[i + 1..];
        var kid, ini := processes[k], processes[INIT];
        processes := processes[k := kid.(ppid := INIT, waitpid := map[])]
                              [INIT := ini.(waitpid := ini.waitpid + kid.waitpid)];
        assert Model() == T.ReparentOne(before, k);
        i := i + 1;
      }
    }

    method ContinueMembers(members: seq<Pid>, c: Choice)
      modifies this
      ensures Model() == old(T.ContinueMembers(Model(), members, c))
      ensures draining == old(draining)
    {
      var i := 0;
      while i < |members|
        invariant 0 <= i <= |members| && draining == old(draining)
        invariant T.ContinueMembers(Model(), members[i..], c) == old(T.ContinueMembers(Model(), members, c))
      {
        var p := members[i];
        assert members[i..][1..] == members[i + 1..];
        if p in processes && processes[p].status.Stopped? {
          var _ := SendSig(INIT, p, SIGCONT, c);
          var _ := SendSig(INIT, p, SIGHUP, c);
        }
        i := i + 1;
      }
    }

    /** Which groups were orphaned before the children moved is decided by `before`. */
    method ContinueOrphans(ghost before: Mgr, affected: set<Pid>, wasOrphaned: set<Pid>, c: Choice)
      requires forall g :: g in wasOrphaned <==> g in affected && Orphaned(before, g) == Some(true)
      modifies this
      ensures Model() == old(T.ContinueOrphans(Model(), before, affected, c.groups, c))
      ensures draining == old(draining)
    {
      var i := 0;
      while i < |c.groups|
        invariant 0 <= i <= |c.groups| && draining == old(draining)
        invariant T.ContinueOrphans(Model(), before, affected, c.groups[i..], c)
               == old(T.ContinueOrphans(Model(), before, affected, c.groups, c))
      {
        var g := c.groups[i];
        assert c.groups[i..][1..] == c.groups[i + 1..];
        if g in affected && g !in wasOrphaned {
          var orphaned := PgrpIsOrphaned(g);
          if orphaned == Some(true) { ContinueMembers(groups[g], c); }
        }
        i := i + 1;
      }
    }

    method Children(p: Pid, order: seq<Pid>) returns (kids: seq<Pid>)
      ensures kids == ChildrenOf(Model(), p, order)
    {
      ghost var m := Model();
      kids := [];
      assert order[..0] == [];
      for i := 0 to |order|
        invariant kids == ChildrenOf(m, p, order[..i])
      {
        var k := order[i];
        ChildrenOfSnoc(m, p, order[..i], k);
        assert order[..i + 1] == order[..i] + [k];
        if k in processes && k != INIT && processes[k].ppid == p { kids := kids + [k]; }
      }
      assert order[..|order|] == order;
    }

    method OrphanStep(p: Pid, pgid: Pid, c: Choice)
      requires INIT in processes
      modifies this
      ensures Model() == old(T.OrphanStep(Model(), p, pgid, c))
      ensures draining == old(draining)
    {
      WakeWaiters(INIT);
      ghost var m1 := Model();
      var kids := Children(p, c.procs);
      var affected := {pgid} + set k | k in kids :: processes[k].pgid;
      var wasOrphaned := OrphanedAmong(affected);
      ReparentChildren(kids);
      ContinueOrphans(m1, affected, wasOrphaned, c);
    }

    method OrphanedAmong(candidates: set<Pid>) returns (r: set<Pid>)
      ensures forall g :: g in r <==> g in candidates && Orphaned(Model(), g) == Some(true)
    {
      r := {};
      var rest := candidates;
      while rest != {}
        invariant rest <= candidates
        invariant forall g :: g in r <==> g in candidates && g !in rest && Orphaned(Model(), g) == Some(true)
        decreases rest
      {
        var g :| g in rest;
        var orphaned := PgrpIsOrphaned(g);
        if orphaned == Some(true) { r := r + {g}; }
        rest := rest - {g};
      }
    }

    method FinishExit(p: Pid, how: Exit, c: Choice)
      requires p in processes
      modifies this
      ensures Model() == old(T.FinishExit(Model(), p, how, c))
      ensures draining == old(draining)
    {
      var proc := processes[p];
      processes := processes[p := proc.(status := Exited(how))];
      if proc.ppid !in processes { return; }
      if INIT in processes { OrphanStep(p, proc.pgid, c); }
      FileEvent(proc.ppid, p, proc.pgid, Terminated(how));
    }

    method WorkOnTerm(v: Vid, p: Pid, owner: Option<nat>, c: Choice) returns (r: Reply)
      modifies this
      ensures (Model(), r) == old(T.WorkOnTerm(Model(), v, p, owner, c))
      ensures draining == old(draining)
    {
      if p !in processes {
        states := if owner.Some? then states[v := Placeholder] else states - {v};
        return Answered(owner, Err(ESRCH));
      }
      var proc := processes[p];
      if proc.threads != [] {
        processes := processes[p := proc.(awaitingTerm := proc.awaitingTerm + [v])];
        states := states[v := AwaitingTerm(p, owner)];
        return NoReply;
      }
      if proc.status.Exiting? {
        states := states - {v};
        FinishExit(p, proc.status.how, c);
        return Answered(owner, Ok(Plain(0)));
      }
      states := if owner.Some? then states[v := Placeholder] else states - {v};
      return Answered(owner, if proc.status.Exited? then Ok(Plain(0)) else Err(ESRCH));
    }

    method Reap(p: Pid)
      modifies this
      ensures Model() == old(T.Reap(Model(), p))
      ensures draining == old(draining)
    {
      if p !in processes || processes[p].threads != [] { return; }
      var g := processes[p].pgid;
      processes := processes - {p};
      if g in groups {
        var left := Without(groups[g], p);
        groups := if left == [] then groups - {g} else groups[g := left];
      }
    }

    method Deliver(w: Pid, e: Event, flags: WaitFlags) returns (r: Polled)
      modifies this
      ensures (Model(), r) == old(T.Deliver(Model(), w, e, flags))
      ensures draining == old(draining)
    {
      match e
      case Continued => return if flags.continued then Ready(Ok(Waited(w, StatusWord(e)))) else StillPending;
      case StoppedBy(_) => return if flags.untraced then Ready(Ok(Waited(w, StatusWord(e)))) else StillPending;
      case Terminated(_) =>
        Reap(w);
        return Ready(Ok(Waited(w, StatusWord(e))));
    }

    method TakeOrWait(p: Pid, found: Option<Pid>, flags: WaitFlags, v: Vid) returns (r: Polled)
      requires p in processes
      requires found.Some? ==> found.value in processes[p].waitpid
      modifies this
      ensures (Model(), r) == old(T.TakeOrWait(Model(), p, found, flags, v))
      ensures draining == old(draining)
    {
      var proc := processes[p];
      if found.Some? {
        processes := processes[p := proc.(waitpid := proc.waitpid - {found.value})];
        r := Deliver(found.value, proc.waitpid[found.value].event, flags);
      } else if flags.nohang {
        r := Ready(Ok(Waited(0, 0)));
      } else {
        processes := processes[p := proc.(waiting := proc.waiting + [v])];
        r := StillPending;
      }
    }

    method Waitpid(p: Pid, target: Target, flags: WaitFlags, v: Vid, c: Choice) returns (r: Polled)
      modifies this
      ensures (Model(), r) == old(T.Waitpid(Model(), p, target, flags, v, c))
      ensures draining == old(draining)
    {
      if (target.AnyChild? || target.AnyGroupMember?) && !exists k :: k in processes && processes[k].ppid == p {
        return Ready(Err(ECHILD));
      }
      if p !in processes { return Ready(Err(EBADFD)); }
      var proc := processes[p];
      match target
      case AnyChild =>
        var first := None;
        if proc.waitpid.Keys != {} {
          var w := LeastKey(proc.waitpid.Keys);
          first := Some(w);
        }
        r := TakeOrWait(p, first, flags, v);
      case AnyGroupMember => r := TakeOrWait(p, GroupEntry(proc, proc.pgid, c), flags, v);
      case SingleProc(t) =>
        if p == t { return Ready(Err(EINVAL)); }
        if t !in processes || processes[t].ppid != p { return Ready(Err(ECHILD)); }
        if processes[t].status.Exited? {
          var how := processes[t].status.how;
          processes := processes[p := proc.(waitpid := proc.waitpid - {t})];
          r := Deliver(t, Terminated(how), flags);
        } else {
          r := TakeOrWait(p, if t in proc.waitpid then Some(t) else None, flags, v);
        }
      case ProcGroup(g) =>
        if g !in groups || !exists k :: k in groups[g] && k in processes && k != p && processes[k].ppid == p {
          return Ready(Err(ECHILD));
        }
        r := TakeOrWait(p, GroupEntry(proc, g, c), flags, v);
    }

    method WorkOn(v: Vid, c: Choice) returns (r: Reply)
      requires v in states
      modifies this
      ensures (Model(), r) == old(T.WorkOn(Model(), v, c))
      ensures draining == old(draining)
    {
      var state := states[v];
      match state
      case Placeholder => return NoReply;
      case AwaitingTerm(p, owner) => r := WorkOnTerm(v, p, owner, c);
      case AwaitingStatusChange(p, target, flags, tag) =>
        states := states[v := Placeholder];
        var polled := Waitpid(p, target, flags, v, c);
        if polled.Ready? { return Reply(tag, polled.result); }
        states := states[v := state];
        return NoReply;
    }

    method ExitStart(p: Pid, how: Option<Exit>, v: Vid, owner: Option<nat>, c: Choice) returns (r: Reply)
      modifies this
      ensures (Model(), r) == old(T.ExitStart(Model(), p, how, v, owner, c))
      ensures draining == old(draining)
    {
      if p !in processes { return Answered(owner, Err(EBADFD)); }
      var proc := processes[p];
      if proc.status.Exiting? { return Answered(owner, Err(EAGAIN)); }
      if proc.status.Exited? { return Answered(owner, Err(ESRCH)); }
      if how.None? { return Answered(owner, Err(EINVAL)); }
      processes := processes[p := proc.(status := Exiting(how.value),
                                        awaitingTerm := proc.awaitingTerm + if proc.threads == [] then [] else [v])];
      states := states[v := AwaitingTerm(p, owner)];
      accepted := accepted[p := how.value];
      assert proc.awaitingTerm + [] == proc.awaitingTerm;
      r := WorkOnTerm(v, p, owner, c);
    }

    method ExitRequest(p: Pid, raw: U16, tag: nat, c: Choice) returns (r: Reply)
      modifies this
      ensures (Model(), r) == old(T.ExitRequest(Model(), p, raw, tag, c))
      ensures draining == old(draining)
    {
      states := states - {Kernel(tag)};
      r := ExitStart(p, ParseExit(raw), Kernel(tag), Some(tag), c);
    }

    method WaitRequest(p: Pid, target: Target, flags: WaitFlags, tag: nat, c: Choice) returns (r: Reply)
      modifies this
      ensures (Model(), r) == old(T.WaitRequest(Model(), p, target, flags, tag, c))
      ensures draining == old(draining)
    {
      states := states[Kernel(tag) := AwaitingStatusChange(p, target, flags, tag)];
      r := WorkOn(Kernel(tag), c);
    }

    method Cancel(tag: nat) returns (r: Reply)
      modifies this
      ensures (Model(), r) == old(T.Cancel(Model(), tag))
      ensures draining == old(draining)
    {
      if Kernel(tag) !in states { return NoReply; }
      var state := states[Kernel(tag)];
      states := states - {Kernel(tag)};
      match state
      case AwaitingStatusChange(_, _, _, t) => return Reply(t, Err(ECANCELED));
      case AwaitingTerm(p, owner) =>
        var v := Internal(nextInternal);
        nextInternal := nextInternal + 1;
        states := states[v := AwaitingTerm(p, None)];
        assert draining + (queue + [v]) == draining + queue + [v];
        queue := queue + [v];
        return Answered(owner, Err(ECANCELED));
      case Placeholder => return NoReply;
    }

    method LoseThread(t: Thread)
      requires t in lookup && lookup[t] in processes
      modifies this
      ensures Model() == old(T.LoseThread(Model(), t))
      ensures draining == old(draining)
    {
      var p := lookup[t];
      processes := processes[p := processes[p].(threads := Without(processes[p].threads, t))];
      lookup := lookup - {t};
    }

    method WakeParked(p: Pid)
      requires p in processes
      modifies this
      ensures Model() == old(T.WakeParked(Model(), p))
      ensures draining == old(draining)
    {
      var parked := processes[p].awaitingTerm;
      assert draining + (queue + parked) == draining + queue + parked;
      processes := processes[p := processes[p].(awaitingTerm := [])];
      queue := queue + parked;
    }

    /** Starts an exit nobody asked for, under a fresh internal id. */
    method ForceExit(p: Pid, how: Option<Exit>, c: Choice)
      modifies this
      ensures Model() == old(if Internal(nextInternal) in states then TakeInternal(Model())
                             else T.ExitStart(TakeInternal(Model()), p, how, Internal(nextInternal), None, c).0)
      ensures draining == old(draining)
    {
      var v := Internal(nextInternal);
      nextInternal := nextInternal + 1;
      assert Model() == old(TakeInternal(Model()));
      if v !in states {
        var _ := ExitStart(p, how, v, None, c);
      }
    }

    method ThreadEvent(t: Thread, d: Death, c: Choice)
      modifies this
      ensures Model() == old(T.ThreadEvent(Model(), t, d, c))
      ensures draining == old(draining)
    {
      if t !in lookup || lookup[t] !in processes || d.Spurious? { return; }
      var p := lookup[t];
      LoseThread(t);
      if processes[p].status.Exiting? {
        WakeParked(p);
      } else if processes[p].threads == [] {
        ForceExit(p, ParseExit(RawStatus(d)), c);
      }
    }

    /** What this turn finds in its environment. */
    method Environment() returns (c: Choice)
      ensures ValidChoice(Model(), c)
    {
      var procOrder := Enumerate(processes.Keys);
      var groupOrder := Enumerate(groups.Keys);
      var pick: Option<Pid> := *;
      var stops: set<Pid> := *;
      var undeliverable: map<Pid, Errno> := *;
      c := Choice(procOrder, groupOrder, pick, stops, undeliverable);
    }

    /** One turn: the oldest entry of the batch is worked on. */
    method Turn() returns (reply: Reply, ghost c: Choice)
      requires draining != []
      modifies this
      ensures ValidChoice(old(Model()), c) && (Model(), reply) == WakeNext(old(Model()), c)
    {
      ghost var m := Model();
      var env := Environment();
      c := env;
      var v := draining[0];
      draining := draining[1..];
      assert draining + queue == m.awoken[1..];
      reply := NoReply;
      if v in states { reply := WorkOn(v, env); }
    }

    /** Drains the wake-up queues: what a batch enqueues goes to the next batch, and the
        loop ends when both are empty. Every turn sees its own iteration orders. */
    method DrainAwoken() returns (replies: seq<Reply>, ghost turns: seq<Choice>)
      requires draining == []
      modifies this
      ensures queue == [] && draining == []
      ensures WakeRun(old(Model()), turns, Model())
    {
      replies, turns := [], [];
      while queue != [] || draining != []
        invariant WakeRun(old(Model()), turns, Model())
        decreases |ExitingSet(Model())|, |draining| + |queue|, |queue|
      {
        ghost var m := Model();
        if draining == [] {
          draining, queue := queue, [];
          assert draining + queue == m.awoken;
        } else {
          var reply, c := Turn();
          replies := replies + [reply];
          WakeNextDecreases(m, c);
          WakeRunSnoc(old(Model()), turns, m, c);
          turns := turns + [c];
        }
      }
    }
  }
}
