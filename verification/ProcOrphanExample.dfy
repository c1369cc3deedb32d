/** A run in which init gives up root and a newly orphaned group keeps its stopped member. */
module ProcOrphanExample {
  import opened Wrappers
  import opened ProcTable
  import opened ProcRuns
  import opened ProcTheorems
  import opened ProcOrphans
  import opened ProcCompletions

  const ROOT_USER := Creds(0, 0, 0)
  const ORDER := Choice([1, 2, 3], [1, 2, 3], None, {}, map[])

  function Fresh(t: Thread, ppid: Pid, pgid: Pid, sid: Pid): (r: Process)
  {
    Process([t], ppid, pgid, sid, ROOT_USER, PossiblyRunnable, false, [], map[], [], false)
  }

  /** init, its child 2 leading a session of its own, and the child 3 of 2. */
  function Family(init: Process, two: Process, three: Process, groups: map<Pid, seq<Pid>>): (r: Mgr)
  {
    Mgr(map[1 := init, 2 := two, 3 := three], groups, map[0 := 1, 1 := 2, 2 := 3], 4, 1, map[], [], map[])
  }

  function Pair(two: Process, groups: map<Pid, seq<Pid>>): (r: Mgr)
  {
    Mgr(map[1 := Fresh(0, 1, 1, 1), 2 := two], groups, map[0 := 1, 1 := 2], 3, 1, map[], [], map[])
  }

  const APART: map<Pid, seq<Pid>> := map[1 := [1], 2 := [2], 3 := [3]]
  const STOPPED_THREE := Fresh(2, 2, 3, 2).(status := Stopped(SIGSTOP), hasPctl := true)
  const TOLD_TWO := Fresh(1, 1, 2, 2).(waitpid := map[3 := Entry(3, StoppedBy(SIGSTOP))])
  const PLAIN_INIT := Fresh(0, 1, 1, 1).(creds := Creds(5, 5, 0))

  /** `a` leads from `m` to `m'`. */
  ghost predicate Leads(m: Mgr, a: Action, m': Mgr)
  {
    Enabled(m, a) && Next(m, a).0 == m'
  }

  lemma RunExtends(actions: seq<Action>, m: Mgr, a: Action, m': Mgr)
    requires Run(0, actions) == At(m) && Leads(m, a, m')
    ensures Run(0, actions + [a]) == At(m')
  {
    assert (actions + [a])[..|actions|] == actions;
  }

  const FORKED := Pair(Fresh(1, 1, 1, 1), map[1 := [1, 2]])
  const LED := Pair(Fresh(1, 1, 2, 2), map[1 := [1], 2 := [2]])
  const JOINED := Family(Fresh(0, 1, 1, 1), Fresh(1, 1, 2, 2), Fresh(2, 2, 2, 2), map[1 := [1], 2 := [2, 3]])
  const LAUNCHED := Family(Fresh(0, 1, 1, 1), Fresh(1, 1, 2, 2), Fresh(2, 2, 3, 2), APART)
  const READY := Family(Fresh(0, 1, 1, 1), Fresh(1, 1, 2, 2), Fresh(2, 2, 3, 2).(hasPctl := true), APART)
  const STOPPED := Family(Fresh(0, 1, 1, 1), TOLD_TWO, STOPPED_THREE, APART)
  const SCENE := Family(PLAIN_INIT, TOLD_TWO, STOPPED_THREE, APART)

  lemma ForksTwo()
    ensures Leads(BootState(0), DoFork(1, 1, true), FORKED)
  {
    assert [1] + [2] == [1, 2];
  }

  lemma ForksThree()
    ensures Leads(LED, DoFork(2, 2, true), JOINED)
  {
    assert [2] + [3] == [2, 3];
  }

  lemma LeavesGroups()
    ensures MoveGroup(map[1 := [1, 2]], 2, 1, 2) == map[1 := [1], 2 := [2]]
    ensures MoveGroup(map[1 := [1], 2 := [2, 3]], 3, 2, 3) == APART
  {
    assert [1, 2][1..] == [2] && [2][1..] == [] && [2, 3][1..] == [3] && [3][1..] == [];
    assert Without([2], 2) == [] && Without([1, 2], 2) == [1];
    assert Without([3], 3) == [] && Without([2, 3], 3) == [2];
    assert [] + [2] == [2] && [] + [3] == [3];
  }

  /** The table after `p` moved to group `g` and, with `sid`, to a session; nobody waits in the parent. */
  function Moved(m: Mgr, p: Pid, g: Pid, sid: Pid): (r: Mgr)
    requires p in m.processes && m.processes[p].pgid in m.groups
  {
    Put(m, p, m.processes[p].(pgid := g, sid := sid)).(groups := MoveGroup(m.groups, p, m.processes[p].pgid, g))
  }

  ghost predicate CalmParent(m: Mgr, p: Pid)
  {
    && p in m.processes && m.processes[p].pgid in m.groups && m.processes[p].ppid != p
    && m.processes[p].ppid in m.processes && m.processes[m.processes[p].ppid].waiting == []
  }

  lemma ChangeIsMove(m: Mgr, p: Pid, g: Pid)
    requires CalmParent(m, p)
    ensures ChangePgid(m, p, Some(m.processes[p].ppid), g) == (Moved(m, p, g, m.processes[p].sid), Ok(()))
  {
    assert WakeWaiters(m, m.processes[p].ppid) == m;
  }

  lemma SetsidLeads(m: Mgr, p: Pid)
    requires CalmParent(m, p) && !OthersInGroup(m, p) && m.processes[p].pgid != p
    ensures Leads(m, DoSetsid(p), Moved(m, p, p, p))
  {
    ChangeIsMove(m, p, p);
    MovedTwice(m, p);
  }

  lemma MovedTwice(m: Mgr, p: Pid)
    requires p in m.processes && m.processes[p].pgid in m.groups
    ensures var m1 := Moved(m, p, p, m.processes[p].sid);
            p in m1.processes && Put(m1, p, m1.processes[p].(sid := p)) == Moved(m, p, p, p)
  {
  }

  lemma SetpgidLeads(m: Mgr, p: Pid)
    requires CalmParent(m, p) && m.processes[p].sid != p && !m.processes[p].disabledSetpgid
    requires m.processes[m.processes[p].ppid].sid == m.processes[p].sid && m.processes[p].pgid != p
    ensures Leads(m, DoSetpgid(m.processes[p].ppid, p, p), Moved(m, p, p, m.processes[p].sid))
  {
    ChangeIsMove(m, p, p);
  }

  lemma LeadsSession()
    ensures Leads(FORKED, DoSetsid(2), LED)
  {
    SetsidLeads(FORKED, 2);
    LeavesGroups();
  }

  lemma LeadsGroup()
    ensures Leads(JOINED, DoSetpgid(2, 3, 3), LAUNCHED)
  {
    SetpgidLeads(JOINED, 3);
    LeavesGroups();
  }

  lemma OrderFits(m: Mgr)
    requires m.processes.Keys == {1, 2, 3} && m.groups.Keys == {1, 2, 3}
    ensures ValidChoice(m, ORDER)
  {
  }

  lemma GetsReady()
    ensures Leads(LAUNCHED, DoSyncSigPctl(3), READY)
  {
  }

  lemma IsStopped()
    ensures 3 in READY.processes && SigEffect(READY, 2, 3, SIGSTOP, ORDER) == Effect.Stops
    ensures ChangeRunState(READY, 3, Stopped(SIGSTOP), StoppedBy(SIGSTOP)).0 == STOPPED
  {
  }

  lemma Stops()
    ensures Leads(READY, DoKill(2, KillOne(3), SIGSTOP, ORDER), STOPPED)
  {
    OrderFits(READY);
    IsStopped();
    StopLeads(READY, 2, 3, SIGSTOP, ORDER);
  }

  lemma StopLeads(m: Mgr, caller: Pid, p: Pid, sig: nat, c: Choice)
    requires ValidChoice(m, c) && p in m.processes && SigEffect(m, caller, p, sig, c) == Effect.Stops
    ensures Leads(m, DoKill(caller, KillOne(p), sig, c), ChangeRunState(m, p, Stopped(sig), StoppedBy(sig)).0)
  {
  }

  lemma Resigns()
    ensures Leads(STOPPED, DoSetresuid(1, Some(5), Some(5), None), SCENE)
  {
  }

  lemma FourSteps(m1: Mgr, m2: Mgr, m3: Mgr, m4: Mgr, a1: Action, a2: Action, a3: Action, a4: Action)
    requires Leads(BootState(0), a1, m1) && Leads(m1, a2, m2) && Leads(m2, a3, m3) && Leads(m3, a4, m4)
    ensures Run(0, [] + [a1] + [a2] + [a3] + [a4]) == At(m4)
  {
    RunExtends([], BootState(0), a1, m1);
    RunExtends([] + [a1], m1, a2, m2);
    RunExtends([] + [a1] + [a2], m2, a3, m3);
    RunExtends([] + [a1] + [a2] + [a3], m3, a4, m4);
  }

  lemma Launches() returns (actions: seq<Action>)
    ensures Run(0, actions) == At(LAUNCHED)
  {
    ForksTwo();
    LeadsSession();
    ForksThree();
    LeadsGroup();
    FourSteps(FORKED, LED, JOINED, LAUNCHED,
              DoFork(1, 1, true), DoSetsid(2), DoFork(2, 2, true), DoSetpgid(2, 3, 3));
    actions := [] + [DoFork(1, 1, true)] + [DoSetsid(2)] + [DoFork(2, 2, true)] + [DoSetpgid(2, 3, 3)];
  }

  lemma ThreeSteps(actions: seq<Action>, m: Mgr, m1: Mgr, m2: Mgr, m3: Mgr, a1: Action, a2: Action, a3: Action)
    requires Run(0, actions) == At(m) && Leads(m, a1, m1) && Leads(m1, a2, m2) && Leads(m2, a3, m3)
    ensures Run(0, actions + [a1] + [a2] + [a3]) == At(m3)
  {
    RunExtends(actions, m, a1, m1);
    RunExtends(actions + [a1], m1, a2, m2);
    RunExtends(actions + [a1] + [a2], m2, a3, m3);
  }

  lemma Reaches() returns (actions: seq<Action>)
    ensures Run(0, actions) == At(SCENE)
  {
    actions := Launches();
    GetsReady();
    Stops();
    Resigns();
    var kill, resign := DoKill(2, KillOne(3), SIGSTOP, ORDER), DoSetresuid(1, Some(5), Some(5), None);
    ThreeSteps(actions, LAUNCHED, READY, STOPPED, SCENE, DoSyncSigPctl(3), kill, resign);
    actions := actions + [DoSyncSigPctl(3)] + [kill] + [resign];
  }

  lemma Dies()
    ensures NewlyExited(SCENE, ThreadEvent(SCENE, 1, Dead, ORDER), 2)
  {
    assert [1][1..] == [] && Without([1], 1) == [];
    LastThreadEvent(SCENE, 1, Dead, ORDER, Exit(0, 0));
    AcceptedPrelude(SCENE, 1, Exit(0, 0));
    FinishExitCalm(Accepted(SCENE, 1, Exit(0, 0)), 2, Exit(0, 0), ORDER);
  }

  lemma Orphans(m': Mgr)
    requires Adopted(SCENE, m', 2)
    ensures NewlyOrphaned(SCENE, m', 3)
  {
    assert !OrphanVote(SCENE, 3) && OrphanVote(m', 3);
  }

  lemma StaysStopped(actions: seq<Action>, m: Mgr, a: Action)
    requires Run(0, actions) == At(m) && Enabled(m, a) && NewlyExited(m, Next(m, a).0, 2)
    requires m.processes[2].ppid in m.processes && INIT in m.processes
    requires 3 in m.processes && m.processes[3].status.Stopped? && m.processes[3].pgid == 3 && !InitMaySignal(m, 3)
    requires 3 in m.groups && m.groups[3] == [3]
    requires forall m' :: Adopted(m, m', 2) ==> NewlyOrphaned(m, m', 3)
    ensures var m' := Next(m, a).0;
            && NewlyOrphaned(m, m', 3)
            && 3 in m'.processes && m'.processes[3].pgid == 3 && m'.processes[3].status.Stopped?
  {
    CompletedExitsHandOverChildren(0, actions, a, 2);
    NewOrphansLeftStoppedExactly(0, actions, a, 2, 3, 3);
  }

  lemma SceneFits()
    ensures 2 in SCENE.processes && SCENE.processes[2].ppid in SCENE.processes && INIT in SCENE.processes
    ensures 3 in SCENE.processes && SCENE.processes[3].status.Stopped? && SCENE.processes[3].pgid == 3
    ensures !InitMaySignal(SCENE, 3) && 3 in SCENE.groups && SCENE.groups[3] == [3]
    ensures forall m' :: Adopted(SCENE, m', 2) ==> NewlyOrphaned(SCENE, m', 3)
  {
    forall m' | Adopted(SCENE, m', 2) ensures NewlyOrphaned(SCENE, m', 3) { Orphans(m'); }
  }

  /** Not every newly orphaned group is continued: init has become an ordinary user, the parent
      of the stopped process 3 dies, and 3 stays stopped in its now orphaned group. */
  lemma OrphansCanStayStopped() returns (actions: seq<Action>, a: Action)
    ensures Run(0, actions).At? && Enabled(Run(0, actions).m, a)
    ensures var m, m' := Run(0, actions).m, Next(Run(0, actions).m, a).0;
            && NewlyExited(m, m', 2) && NewlyOrphaned(m, m', 3)
            && 3 in m'.processes && m'.processes[3].pgid == 3 && m'.processes[3].status.Stopped?
  {
    actions := Reaches();
    a := DoThreadEvent(1, Dead, ORDER);
    OrderFits(SCENE);
    Dies();
    SceneFits();
    StaysStopped(actions, SCENE, a);
  }
}
