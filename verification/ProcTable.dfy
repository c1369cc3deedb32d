/** The process manager's table and every request or event that changes it, as functions
    from one table to the next. Kernel file descriptors are numbers, kernel status writes
    succeed, and signal pages shared with user programs appear only through `Choice`. */
module ProcTable {
  import opened Wrappers

  type Pid = nat
  type Thread = nat

  /** The raw status of an exit request. */
  type U16 = n: nat | n < 0x10000

  const INIT: Pid := 1

  const SIGHUP := 1
  const SIGKILL := 9
  const SIGCONT := 18
  const SIGSTOP := 19
  const SIGTSTP := 20
  const SIGTTIN := 21
  const SIGTTOU := 22

  /** Key of a pending state: a kernel request, or one the manager made up itself. */
  datatype Vid = Kernel(id: nat) | Internal(n: nat)

  /** How a process ended. Signal 0 stands for "no signal". */
  datatype Exit = Exit(signal: nat, status: nat)

  datatype Status =
    | PossiblyRunnable
    | Stopped(sig: nat)
    | Exiting(how: Exit)
    | Exited(how: Exit)

  datatype Event = Continued | StoppedBy(signal: nat) | Terminated(how: Exit)

  /** A wait status not fetched yet, with the group id its key was filed under. */
  datatype Entry = Entry(pgid: Pid, event: Event)

  datatype Creds = Creds(ruid: nat, euid: nat, suid: nat)

  datatype Process = Process(
    threads: seq<Thread>,
    ppid: Pid,
    pgid: Pid,
    sid: Pid,
    creds: Creds,
    status: Status,
    disabledSetpgid: bool,
    awaitingTerm: seq<Vid>,
    waitpid: map<Pid, Entry>,
    waiting: seq<Vid>,
    hasPctl: bool
  )

  datatype Target = SingleProc(pid: Pid) | ProcGroup(pgid: Pid) | AnyChild | AnyGroupMember

  datatype WaitFlags = WaitFlags(nohang: bool, untraced: bool, continued: bool)

  datatype Pending =
    | AwaitingStatusChange(waiter: Pid, target: Target, flags: WaitFlags, tag: nat)
    | AwaitingTerm(pid: Pid, owner: Option<nat>)
    | Placeholder

  /** `accepted` is the history of exits that were accepted; no operation reads it. */
  datatype Mgr = Mgr(
    processes: map<Pid, Process>,
    groups: map<Pid, seq<Pid>>,
    lookup: map<Thread, Pid>,
    nextId: Pid,
    nextInternal: nat,
    states: map<Vid, Pending>,
    awoken: seq<Vid>,
    accepted: map<Pid, Exit>
  )

  /** Everything the source leaves to its environment: the iteration order of the process
      table and of the group table, which entry (if any) a lookup by group finds, which
      processes would stop on a terminal stop signal, and which ordinary deliveries fail. */
  datatype Choice = Choice(
    procs: seq<Pid>,
    groups: seq<Pid>,
    pick: Option<Pid>,
    stops: set<Pid>,
    undeliverable: map<Pid, Errno>
  )

  datatype Answer = Plain(n: nat) | Waited(pid: Pid, word: nat)

  datatype Reply = NoReply | Reply(tag: nat, result: Result<Answer>)

  ghost predicate NoDup(s: seq<nat>)
  {
    forall i, j :: 0 <= i < j < |s| ==> s[i] != s[j]
  }

  ghost predicate Enumerates(s: seq<nat>, keys: set<nat>)
  {
    NoDup(s) && forall x :: x in s <==> x in keys
  }

  ghost predicate ValidChoice(m: Mgr, c: Choice)
  {
    Enumerates(c.procs, m.processes.Keys) && Enumerates(c.groups, m.groups.Keys)
  }

  function Without(s: seq<nat>, x: nat): (r: seq<nat>)
    ensures forall y :: y in r <==> y in s && y != x
  {
    if s == [] then [] else (if s[0] == x then [] else [s[0]]) + Without(s[1..], x)
  }

  function Put(m: Mgr, p: Pid, proc: Process): (r: Mgr)
  {
    m.(processes := m.processes[p := proc])
  }

  function Answered(owner: Option<nat>, result: Result<Answer>): (r: Reply)
  {
    match owner case None => NoReply case Some(tag) => Reply(tag, result)
  }

  // ---------------------------------------------------------------- process table

  function BootState(t: Thread): (m: Mgr)
  {
    var initProc := Process([t], INIT, INIT, INIT, Creds(0, 0, 0), PossiblyRunnable, false, [], map[], [], false);
    Mgr(map[INIT := initProc], map[INIT := [INIT]], map[t := INIT], 2, 1, map[], [], map[])
  }

  function Fork(m: Mgr, parent: Pid, t: Thread, kernelOk: bool): (r: (Mgr, Result<Pid>))
  {
    var child := m.nextId;
    var m1 := m.(nextId := m.nextId + 1);
    if parent !in m.processes then (m1, Err(EBADFD)) else
    if !kernelOk then (m1, Err(EIO)) else
    var par := m.processes[parent];
    var proc := Process([t], parent, par.pgid, par.sid, par.creds, PossiblyRunnable, false, [], map[], [], false);
    var groups := if par.pgid in m.groups then m.groups[par.pgid := m.groups[par.pgid] + [child]] else m.groups;
    (m1.(processes := m.processes[child := proc], groups := groups, lookup := m.lookup[t := child]), Ok(child))
  }

  function NewThread(m: Mgr, p: Pid, t: Thread, kernelOk: bool): (r: (Mgr, Result<()>))
  {
    if p !in m.processes then (m, Err(EBADFD)) else
    if !kernelOk then (m, Err(EIO)) else
    var proc := m.processes[p];
    (Put(m, p, proc.(threads := proc.threads + [t])).(lookup := m.lookup[t := p]), Ok(()))
  }

  /** Moves everyone waiting in `p` to the wake-up queue. */
  function WakeWaiters(m: Mgr, p: Pid): (r: Mgr)
    requires p in m.processes
    ensures r.processes.Keys == m.processes.Keys && r.groups == m.groups
  {
    var proc := m.processes[p];
    Put(m, p, proc.(waiting := [])).(awoken := m.awoken + proc.waiting)
  }

  function MoveGroup(groups: map<Pid, seq<Pid>>, p: Pid, from: Pid, to: Pid): (r: map<Pid, seq<Pid>>)
    requires from in groups
  {
    var left := Without(groups[from], p);
    var groups1 := if left == [] then groups - {from} else groups[from := left];
    groups1[to := (if to in groups1 then groups1[to] else []) + [p]]
  }

  function ChangePgid(m: Mgr, p: Pid, parent: Option<Pid>, newPgid: Pid): (r: (Mgr, Result<()>))
    requires p in m.processes
    requires parent.Some? ==> parent.value in m.processes && parent.value != p
  {
    var m1 := if parent.Some? then WakeWaiters(m, parent.value) else m;
    var proc := m.processes[p];
    if proc.pgid !in m.groups then (m1, Err(ESRCH)) else
    (Put(m1, p, proc.(pgid := newPgid)).(groups := MoveGroup(m.groups, p, proc.pgid, newPgid)), Ok(()))
  }

  predicate OthersInGroup(m: Mgr, g: Pid)
  {
    exists p :: p in m.processes && p != g && m.processes[p].pgid == g
  }

  function Setsid(m: Mgr, caller: Pid): (r: (Mgr, Result<()>))
  {
    if OthersInGroup(m, caller) then (m, Err(EPERM)) else
    if caller !in m.processes then (m, Err(ESRCH)) else
    var proc := m.processes[caller];
    if proc.ppid == caller then (m, Err(ESRCH)) else
    if proc.pgid == caller then (m, Err(EPERM)) else
    var parent := if proc.ppid in m.processes then Some(proc.ppid) else None;
    var (m1, res) := ChangePgid(m, caller, parent, caller);
    if res.Err? then (m1, res) else
    (Put(m1, caller, m1.processes[caller].(sid := caller)), Ok(()))
  }

  function Setpgid(m: Mgr, caller: Pid, target: Pid, newPgid: Pid): (r: (Mgr, Result<()>))
  {
    if caller !in m.processes || target !in m.processes then (m, Err(ESRCH)) else
    var proc := m.processes[target];
    if proc.ppid != caller && target != caller then (m, Err(ESRCH)) else
    if proc.ppid != target && proc.ppid !in m.processes then (m, Err(ESRCH)) else
    if proc.sid == target then (m, Err(EPERM)) else
    if m.processes[caller].sid != proc.sid then (m, Err(EPERM)) else
    if newPgid != target && newPgid !in m.groups then (m, Err(EPERM)) else
    if proc.ppid == caller && proc.disabledSetpgid then (m, Err(EACCES)) else
    if proc.pgid == newPgid then (m, Ok(())) else
    ChangePgid(m, target, if proc.ppid == target then None else Some(proc.ppid), newPgid)
  }

  function Setresuid(m: Mgr, p: Pid, ruid: Option<nat>, euid: Option<nat>, suid: Option<nat>): (r: (Mgr, Result<()>))
  {
    if p !in m.processes then (m, Err(ESRCH)) else
    var proc := m.processes[p];
    var cur := proc.creds;
    var allowed := (id: Option<nat>) => id.None? || id.value in {cur.ruid, cur.euid, cur.suid};
    if cur.euid != 0 && !(allowed(ruid) && allowed(euid) && allowed(suid)) then (m, Err(EPERM)) else
    var changed := Creds(if ruid.Some? then ruid.value else cur.ruid,
                      if euid.Some? then euid.value else cur.euid,
                      if suid.Some? then suid.value else cur.suid);
    (Put(m, p, proc.(creds := changed)), Ok(()))
  }

  function DisableSetpgid(m: Mgr, p: Pid): (r: (Mgr, Result<()>))
  {
    if p !in m.processes then (m, Err(ESRCH)) else
    (Put(m, p, m.processes[p].(disabledSetpgid := true)), Ok(()))
  }

  function SyncSigPctl(m: Mgr, p: Pid): (r: (Mgr, Result<()>))
  {
    if p !in m.processes then (m, Err(ESRCH)) else
    if m.processes[p].threads == [] then (m, Err(EINVAL)) else
    (Put(m, p, m.processes[p].(hasPctl := true)), Ok(()))
  }

  // ---------------------------------------------------------------- signals

  /** One member of a group counts towards "orphaned" when its parent is in its own group
      or in another session. Members whose parent is gone are skipped. */
  predicate OrphanVote(m: Mgr, p: Pid)
    requires p in m.processes
  {
    var proc := m.processes[p];
    proc.ppid in m.processes ==>
      var parent := m.processes[proc.ppid];
      parent.pgid == proc.pgid || parent.sid != proc.sid
  }

  function Orphaned(m: Mgr, g: Pid): (r: Option<bool>)
  {
    if g !in m.groups then None else
    Some(forall p :: p in m.groups[g] && p in m.processes ==> OrphanVote(m, p))
  }

  /** Files a wait status with the parent; a later status for the same child replaces the
      value but keeps the key it was first filed under. */
  function FileEvent(m: Mgr, parent: Pid, child: Pid, pgid: Pid, event: Event): (r: Mgr)
    requires parent in m.processes
    ensures r.processes.Keys == m.processes.Keys && r.groups == m.groups
  {
    var proc := m.processes[parent];
    var key := if child in proc.waitpid then proc.waitpid[child].pgid else pgid;
    WakeWaiters(Put(m, parent, proc.(waitpid := proc.waitpid[child := Entry(key, event)])), parent)
  }

  function ChangeRunState(m: Mgr, p: Pid, status: Status, event: Event): (r: (Mgr, Result<()>))
    requires p in m.processes
    ensures r.0.processes.Keys == m.processes.Keys && r.0.groups == m.groups
  {
    var proc := m.processes[p];
    var m1 := Put(m, p, proc.(status := status));
    if proc.ppid !in m1.processes then (m1, Err(ESRCH)) else
    (FileEvent(m1, proc.ppid, p, proc.pgid, event), Ok(()))
  }

  predicate IsTerminalStop(sig: nat)
  {
    sig == SIGTSTP || sig == SIGTTIN || sig == SIGTTOU
  }

  predicate MaySignal(caller: Creds, target: Creds)
  {
    caller.euid == 0 || caller.euid == target.ruid || caller.ruid == target.ruid
  }

  predicate Ending(s: Status)
  {
    s.Exiting? || s.Exited?
  }

  /** What a signal does to its target. */
  datatype Effect = Refused(error: Errno) | Harmless | Continues | Stops

  function SigEffect(m: Mgr, caller: Pid, target: Pid, sig: nat, c: Choice): (e: Effect)
    ensures e.Continues? || e.Stops? ==>
              && target in m.processes && m.processes[target].hasPctl
              && !Ending(m.processes[target].status) && 1 <= sig <= 64
  {
    if sig > 64 then Refused(EINVAL) else
    if target !in m.processes || caller !in m.processes then Refused(ESRCH) else
    var proc := m.processes[target];
    if !MaySignal(m.processes[caller].creds, proc.creds) then Refused(EPERM) else
    if sig == 0 || Ending(proc.status) then Harmless else
    if !proc.hasPctl then Refused(ESRCH) else
    if sig == SIGCONT && proc.status.Stopped? then Continues
    else if sig == SIGSTOP || (IsTerminalStop(sig) && target in c.stops) then
      if IsTerminalStop(sig) && Orphaned(m, proc.pgid) != Some(false) then Harmless else Stops
    else if sig == SIGKILL || target !in c.undeliverable then Harmless
    else Refused(c.undeliverable[target])
  }

  /** SIGKILL only asks the kernel to kill the threads, and the SIGCHLD that follows a stop
      or a continue is an ordinary delivery: neither changes the table. */
  function SendSig(m: Mgr, caller: Pid, target: Pid, sig: nat, c: Choice): (r: (Mgr, Result<()>))
    ensures r.0.processes.Keys == m.processes.Keys && r.0.groups == m.groups
  {
    match SigEffect(m, caller, target, sig, c)
    case Refused(e) => (m, Err(e))
    case Harmless => (m, Ok(()))
    case Continues => ChangeRunState(m, target, PossiblyRunnable, Continued)
    case Stops => ChangeRunState(m, target, Stopped(sig), StoppedBy(sig))
  }

  datatype KillTarget = KillOne(pid: Pid) | KillAll | KillGroup(pgid: Pid) | KillOwnGroup

  /** Signals the processes of `order` that belong to `group` (all of them for None). */
  function SendMany(m: Mgr, caller: Pid, group: Option<Pid>, sig: nat, order: seq<Pid>, c: Choice): (r: Mgr)
    ensures r.processes.Keys == m.processes.Keys && r.groups == m.groups
    decreases |order|
  {
    if order == [] then m else
    var p := order[0];
    var m1 := if p in m.processes && (group.None? || m.processes[p].pgid == group.value)
              then SendSig(m, caller, p, sig, c).0 else m;
    SendMany(m1, caller, group, sig, order[1..], c)
  }

  function Kill(m: Mgr, caller: Pid, target: KillTarget, sig: nat, c: Choice): (r: Mgr)
  {
    match target
    case KillOne(p) => SendSig(m, caller, p, sig, c).0
    case KillAll => SendMany(m, caller, None, sig, c.procs, c)
    case KillGroup(g) => SendMany(m, caller, Some(g), sig, c.procs, c)
    case KillOwnGroup =>
      if caller !in m.processes then m
      else SendMany(m, caller, Some(m.processes[caller].pgid), sig, c.procs, c)
  }

  // ---------------------------------------------------------------- exit

  /** The raw 16-bit status of an exit request: a plain status byte, or a signal in the
      high byte that must lie in 1..=64. */
  function ParseExit(raw: U16): (r: Option<Exit>)
  {
    if raw < 256 then Some(Exit(0, raw))
    else
      var sig := raw / 256;
      if 1 <= sig <= 64 then Some(Exit(sig, 0)) else None
  }

  function ChildrenOf(m: Mgr, p: Pid, order: seq<Pid>): (r: seq<Pid>)
    ensures forall k :: k in r <==> k in order && k in m.processes && k != INIT && m.processes[k].ppid == p
  {
    if order == [] then [] else
    var k := order[0];
    (if k in m.processes && k != INIT && m.processes[k].ppid == p then [k] else [])
      + ChildrenOf(m, p, order[1..])
  }

  function ReparentOne(m: Mgr, k: Pid): (r: Mgr)
    requires k in m.processes && INIT in m.processes && k != INIT
    ensures r.processes.Keys == m.processes.Keys && r.groups == m.groups
  {
    var kid, ini := m.processes[k], m.processes[INIT];
    m.(processes := m.processes[k := kid.(ppid := INIT, waitpid := map[])]
                               [INIT := ini.(waitpid := ini.waitpid + kid.waitpid)])
  }

  function Reparent(m: Mgr, kids: seq<Pid>): (r: Mgr)
    requires INIT in m.processes
    requires forall k :: k in kids ==> k in m.processes && k != INIT
    ensures r.processes.Keys == m.processes.Keys && r.groups == m.groups
    decreases |kids|
  {
    if kids == [] then m else Reparent(ReparentOne(m, kids[0]), kids[1..])
  }

  /** SIGCONT then SIGHUP, from init, to every stopped member. */
  function ContinueMembers(m: Mgr, members: seq<Pid>, c: Choice): (r: Mgr)
    ensures r.processes.Keys == m.processes.Keys && r.groups == m.groups
    decreases |members|
  {
    if members == [] then m else
    var p := members[0];
    var m1 := if p in m.processes && m.processes[p].status.Stopped?
              then SendSig(SendSig(m, INIT, p, SIGCONT, c).0, INIT, p, SIGHUP, c).0 else m;
    ContinueMembers(m1, members[1..], c)
  }

  /** The affected groups that were not orphaned in `before` but are now. */
  function ContinueOrphans(m: Mgr, before: Mgr, affected: set<Pid>, order: seq<Pid>, c: Choice): (r: Mgr)
    ensures r.processes.Keys == m.processes.Keys && r.groups == m.groups
    decreases |order|
  {
    if order == [] then m else
    var g := order[0];
    var m1 := if g in affected && Orphaned(before, g) != Some(true) && Orphaned(m, g) == Some(true)
              then ContinueMembers(m, m.groups[g], c) else m;
    ContinueOrphans(m1, before, affected, order[1..], c)
  }

  function AffectedGroups(m: Mgr, kids: seq<Pid>, pgid: Pid): (r: set<Pid>)
    requires forall k :: k in kids ==> k in m.processes
  {
    {pgid} + set k | k in kids :: m.processes[k].pgid
  }

  function OrphanStep(m: Mgr, p: Pid, pgid: Pid, c: Choice): (r: Mgr)
    requires INIT in m.processes
    ensures r.processes.Keys == m.processes.Keys && r.groups == m.groups
  {
    var m1 := WakeWaiters(m, INIT);
    var kids := ChildrenOf(m1, p, c.procs);
    var affected := AffectedGroups(m1, kids, pgid);
    ContinueOrphans(Reparent(m1, kids), m1, affected, c.groups, c)
  }

  /** The last thread of an exiting process is gone. */
  function FinishExit(m: Mgr, p: Pid, how: Exit, c: Choice): (r: Mgr)
    requires p in m.processes
    ensures r.processes.Keys == m.processes.Keys && r.groups == m.groups
  {
    var proc := m.processes[p];
    var m1 := Put(m, p, proc.(status := Exited(how)));
    if proc.ppid !in m1.processes then m1 else
    var m2 := if INIT in m1.processes then OrphanStep(m1, p, proc.pgid, c) else m1;
    FileEvent(m2, proc.ppid, p, proc.pgid, Terminated(how))
  }

  function DropState(m: Mgr, v: Vid): (r: Mgr)
  {
    m.(states := m.states - {v})
  }

  function SetState(m: Mgr, v: Vid, s: Pending): (r: Mgr)
  {
    m.(states := m.states[v := s])
  }

  function WorkOnTerm(m: Mgr, v: Vid, p: Pid, owner: Option<nat>, c: Choice): (r: (Mgr, Reply))
  {
    var parked := SetState(m, v, Placeholder);
    var gone := if owner.Some? then parked else DropState(m, v);
    if p !in m.processes then (gone, Answered(owner, Err(ESRCH))) else
    var proc := m.processes[p];
    if proc.threads != [] then
      (SetState(Put(m, p, proc.(awaitingTerm := proc.awaitingTerm + [v])), v, AwaitingTerm(p, owner)), NoReply)
    else
      match proc.status
      case Exiting(how) => (FinishExit(DropState(m, v), p, how, c), Answered(owner, Ok(Plain(0))))
      case Exited(_) => (gone, Answered(owner, Ok(Plain(0))))
      case _ => (gone, Answered(owner, Err(ESRCH)))
  }

  function Reap(m: Mgr, p: Pid): (r: Mgr)
    ensures r == m.(processes := r.processes, groups := r.groups)
  {
    if p !in m.processes || m.processes[p].threads != [] then m else
    var g := m.processes[p].pgid;
    var m1 := m.(processes := m.processes - {p});
    if g !in m.groups then m1 else
    var left := Without(m.groups[g], p);
    m1.(groups := if left == [] then m.groups - {g} else m.groups[g := left])
  }

  // ---------------------------------------------------------------- waitpid

  function StatusWord(e: Event): (w: nat)
  {
    match e
    case Continued => 0xffff
    case StoppedBy(sig) => 0x7f + 256 * sig
    case Terminated(how) => how.signal + 256 * how.status
  }

  datatype Polled = Ready(result: Result<Answer>) | StillPending

  /** Delivers one wait status. A stop or continue nobody asked for is dropped. */
  function Deliver(m: Mgr, w: Pid, e: Event, flags: WaitFlags): (r: (Mgr, Polled))
    ensures r.0 == m.(processes := r.0.processes, groups := r.0.groups)
  {
    match e
    case Continued => (m, if flags.continued then Ready(Ok(Waited(w, StatusWord(e)))) else StillPending)
    case StoppedBy(_) => (m, if flags.untraced then Ready(Ok(Waited(w, StatusWord(e)))) else StillPending)
    case Terminated(_) => (Reap(m, w), Ready(Ok(Waited(w, StatusWord(e)))))
  }

  function RemoveEntry(m: Mgr, p: Pid, w: Pid): (r: Mgr)
    requires p in m.processes
  {
    Put(m, p, m.processes[p].(waitpid := m.processes[p].waitpid - {w}))
  }

  function TakeOrWait(m: Mgr, p: Pid, found: Option<Pid>, flags: WaitFlags, v: Vid): (r: (Mgr, Polled))
    requires p in m.processes
    requires found.Some? ==> found.value in m.processes[p].waitpid
    ensures r.0 == m.(processes := r.0.processes, groups := r.0.groups)
  {
    var proc := m.processes[p];
    match found
    case Some(w) => Deliver(RemoveEntry(m, p, w), w, proc.waitpid[w].event, flags)
    case None =>
      if flags.nohang then (m, Ready(Ok(Waited(0, 0))))
      else (Put(m, p, proc.(waiting := proc.waiting + [v])), StillPending)
  }

  ghost predicate IsLeast(w: Pid, s: set<Pid>)
  {
    w in s && forall x :: x in s ==> w <= x
  }

  lemma LeastExists(s: set<Pid>)
    requires s != {}
    ensures exists w :: IsLeast(w, s)
  {
    var x :| x in s;
    if s == {x} {
      assert IsLeast(x, s);
    } else {
      LeastExists(s - {x});
      var w :| IsLeast(w, s - {x});
      assert forall y :: y in s ==> y == x || y in s - {x};
      assert IsLeast(if x < w then x else w, s);
    }
  }

  ghost function Least(s: set<Pid>): (w: Pid)
    requires s != {}
    ensures IsLeast(w, s)
  {
    LeastExists(s);
    var w :| IsLeast(w, s);
    w
  }

  /** Keys are ordered by pid, so the first entry is the one of the smallest pid. */
  ghost function FirstEntry(proc: Process): (r: Option<Pid>)
    ensures r.Some? ==> r.value in proc.waitpid
  {
    if proc.waitpid.Keys == {} then None else Some(Least(proc.waitpid.Keys))
  }

  /** A lookup by group may find any entry filed under the group, or none. */
  function GroupEntry(proc: Process, g: Pid, c: Choice): (r: Option<Pid>)
    ensures r.Some? ==> r.value in proc.waitpid
  {
    if c.pick.Some? && c.pick.value in proc.waitpid && proc.waitpid[c.pick.value].pgid == g then c.pick else None
  }

  predicate HasChild(m: Mgr, p: Pid)
  {
    exists k :: k in m.processes && m.processes[k].ppid == p
  }

  predicate HasChildInGroup(m: Mgr, p: Pid, g: Pid)
  {
    g in m.groups && exists k :: k in m.groups[g] && k in m.processes && k != p && m.processes[k].ppid == p
  }

  ghost function Waitpid(m: Mgr, p: Pid, target: Target, flags: WaitFlags, v: Vid, c: Choice): (r: (Mgr, Polled))
    ensures r.0 == m.(processes := r.0.processes, groups := r.0.groups)
  {
    if (target.AnyChild? || target.AnyGroupMember?) && !HasChild(m, p) then (m, Ready(Err(ECHILD))) else
    if p !in m.processes then (m, Ready(Err(EBADFD))) else
    var proc := m.processes[p];
    match target
    case AnyChild => TakeOrWait(m, p, FirstEntry(proc), flags, v)
    case AnyGroupMember => TakeOrWait(m, p, GroupEntry(proc, proc.pgid, c), flags, v)
    case SingleProc(t) =>
      if p == t then (m, Ready(Err(EINVAL))) else
      if t !in m.processes || m.processes[t].ppid != p then (m, Ready(Err(ECHILD))) else
      if m.processes[t].status.Exited? then
        Deliver(RemoveEntry(m, p, t), t, Terminated(m.processes[t].status.how), flags)
      else
        TakeOrWait(m, p, if t in proc.waitpid then Some(t) else None, flags, v)
    case ProcGroup(g) =>
      if !HasChildInGroup(m, p, g) then (m, Ready(Err(ECHILD)))
      else TakeOrWait(m, p, GroupEntry(proc, g, c), flags, v)
  }

  // ---------------------------------------------------------------- requests, events, wake-ups

  ghost function WorkOn(m: Mgr, v: Vid, c: Choice): (r: (Mgr, Reply))
    requires v in m.states
  {
    match m.states[v]
    case Placeholder => (m, NoReply)
    case AwaitingTerm(p, owner) => WorkOnTerm(m, v, p, owner, c)
    case AwaitingStatusChange(p, target, flags, tag) =>
      var (m1, polled) := Waitpid(SetState(m, v, Placeholder), p, target, flags, v, c);
      match polled
      case Ready(result) => (m1, Reply(tag, result))
      case StillPending => (SetState(m1, v, m.states[v]), NoReply)
  }

  function ExitStart(m: Mgr, p: Pid, how: Option<Exit>, v: Vid, owner: Option<nat>, c: Choice): (r: (Mgr, Reply))
  {
    if p !in m.processes then (m, Answered(owner, Err(EBADFD))) else
    var proc := m.processes[p];
    if proc.status.Exiting? then (m, Answered(owner, Err(EAGAIN))) else
    if proc.status.Exited? then (m, Answered(owner, Err(ESRCH))) else
    if how.None? then (m, Answered(owner, Err(EINVAL))) else
    WorkOnTerm(AcceptExit(m, p, how.value, v, owner), v, p, owner, c)
  }

  function AcceptExit(m: Mgr, p: Pid, how: Exit, v: Vid, owner: Option<nat>): (r: Mgr)
    requires p in m.processes
    ensures v in r.states
  {
    var proc := m.processes[p];
    var parked := if proc.threads == [] then proc.awaitingTerm else proc.awaitingTerm + [v];
    SetState(Put(m, p, proc.(status := Exiting(how), awaitingTerm := parked)), v, AwaitingTerm(p, owner))
      .(accepted := m.accepted[p := how])
  }

  function ExitRequest(m: Mgr, p: Pid, raw: U16, tag: nat, c: Choice): (r: (Mgr, Reply))
  {
    ExitStart(DropState(m, Kernel(tag)), p, ParseExit(raw), Kernel(tag), Some(tag), c)
  }

  ghost function WaitRequest(m: Mgr, p: Pid, target: Target, flags: WaitFlags, tag: nat, c: Choice): (r: (Mgr, Reply))
  {
    WorkOn(SetState(m, Kernel(tag), AwaitingStatusChange(p, target, flags, tag)), Kernel(tag), c)
  }

  /** Cancelling an exit only detaches its requester: the exit goes on under an internal id. */
  function Cancel(m: Mgr, tag: nat): (r: (Mgr, Reply))
  {
    if Kernel(tag) !in m.states then (m, NoReply) else
    var m1 := DropState(m, Kernel(tag));
    match m.states[Kernel(tag)]
    case AwaitingStatusChange(_, _, _, t) => (m1, Reply(t, Err(ECANCELED)))
    case AwaitingTerm(p, owner) =>
      var v := Internal(m.nextInternal);
      (SetState(m1, v, AwaitingTerm(p, None)).(nextInternal := m.nextInternal + 1, awoken := m.awoken + [v]),
       Answered(owner, Err(ECANCELED)))
    case Placeholder => (m1, NoReply)
  }

  datatype Death = Dead | ForceKilled | UnhandledException | Spurious

  function RawStatus(d: Death): (raw: U16)
  {
    match d case ForceKilled => 256 * SIGKILL case UnhandledException => 1 case _ => 0
  }

  function LoseThread(m: Mgr, t: Thread): (r: Mgr)
    requires t in m.lookup && m.lookup[t] in m.processes
  {
    var p := m.lookup[t];
    var proc := m.processes[p].(threads := Without(m.processes[p].threads, t));
    Put(m, p, proc).(lookup := m.lookup - {t})
  }

  /** Moves the pending states parked with `p` to the wake-up queue. */
  function WakeParked(m: Mgr, p: Pid): (r: Mgr)
    requires p in m.processes
  {
    var proc := m.processes[p];
    Put(m, p, proc.(awaitingTerm := [])).(awoken := m.awoken + proc.awaitingTerm)
  }

  function TakeInternal(m: Mgr): (r: Mgr)
  {
    m.(nextInternal := m.nextInternal + 1)
  }

  /** A process that loses its last thread without asking to exit is made to exit. */
  function ThreadEvent(m: Mgr, t: Thread, d: Death, c: Choice): (r: Mgr)
  {
    if t !in m.lookup || m.lookup[t] !in m.processes || d.Spurious? then m else
    var p, m1 := m.lookup[t], LoseThread(m, t);
    if m1.processes[p].status.Exiting? then WakeParked(m1, p)
    else if m1.processes[p].threads != [] then m1
    else if Internal(m.nextInternal) in m.states then TakeInternal(m1)
    else ExitStart(TakeInternal(m1), p, ParseExit(RawStatus(d)), Internal(m.nextInternal), None, c).0
  }

  /** One turn of the wake-up loop: the oldest entry of the queue is worked on. */
  ghost function WakeNext(m: Mgr, c: Choice): (r: (Mgr, Reply))
    requires m.awoken != []
  {
    var v, m1 := m.awoken[0], m.(awoken := m.awoken[1..]);
    if v in m.states then WorkOn(m1, v, c) else (m1, NoReply)
  }
}
