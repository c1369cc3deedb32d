/** Every interleaving of the limiter: threads that acquire and finish, tokens that
    arrive on the helper thread, condition-variable notifications that are still in
    flight, and spurious wake-ups. Each action is one critical section of the mutex. */
module LimiterProtocol {
  import opened Wrappers
  import opened LimiterState

  type Tid = nat

  /** `woken` threads left the condition variable but do not hold the mutex yet:
      they are the notifications in flight. */
  datatype Sys = Sys(
    core: Core,
    sleeping: set<Tid>,
    woken: set<Tid>,
    running: set<Tid>,
    finished: set<Tid>,
    raised: set<Tid>,
    requested: nat
  )

  datatype Action =
    | Acquire(t: Tid)
    | Resume(t: Tid)
    | Finish(t: Tid, notified: Tid)
    | TokenArrives(id: nat, notified: Tid)
    | TokenFails(error: string)
    | SpuriousWakeup(t: Tid)

  function Init(pendingJobs: nat): (s: Sys)
  {
    Sys(NewCore(pendingJobs), {}, {}, {}, {}, {}, 0)
  }

  predicate IsNew(s: Sys, t: Tid)
  {
    t !in s.sleeping && t !in s.woken && t !in s.running && t !in s.finished && t !in s.raised
  }

  function Entered(s: Sys): (n: nat)
  {
    |s.sleeping| + |s.woken| + |s.running| + |s.finished| + |s.raised|
  }

  /** A notification reaches some sleeper, unless nobody sleeps. */
  predicate ValidNotify(s: Sys, t: Tid)
  {
    s.sleeping != {} ==> t in s.sleeping
  }

  function NotifyOne(s: Sys, t: Tid): (r: Sys)
    requires ValidNotify(s, t)
  {
    if s.sleeping == {} then s else s.(sleeping := s.sleeping - {t}, woken := s.woken + {t})
  }

  function NotifyAll(s: Sys): (r: Sys)
  {
    s.(sleeping := {}, woken := s.woken + s.sleeping)
  }

  predicate Enabled(s: Sys, a: Action)
  {
    match a
    case Acquire(t) => IsNew(s, t)
    case Resume(t) => t in s.woken
    case Finish(t, n) => t in s.running && ValidNotify(s, n)
    case TokenArrives(_, n) => ValidNotify(s, n)
    case TokenFails(_) => true
    case SpuriousWakeup(t) => t in s.sleeping
  }

  /** One pass through the loop of `acquire`, by a thread that holds the mutex. */
  function AcquireOnce(s: Sys, t: Tid): (r: Outcome<Sys>)
  {
    if !AssertInvariants(s.core) then Panic else
    match TryStartJob(s.core)
    case Panic => Panic
    case Done((c, Started)) => Done(s.(core := c, running := s.running + {t}))
    case Done((c, Blocked)) => Done(s.(core := c, sleeping := s.sleeping + {t}, requested := s.requested + 1))
    case Done((c, Failed(_))) => Done(s.(core := c, raised := s.raised + {t}))
  }

  function Next(s: Sys, a: Action): (r: Outcome<Sys>)
    requires Enabled(s, a)
  {
    match a
    case Acquire(t) => AcquireOnce(s, t)
    case Resume(t) => AcquireOnce(s.(woken := s.woken - {t}), t)
    case Finish(t, n) =>
      (match JobFinished(s.core)
       case Panic => Panic
       case Done(c) =>
         Done(NotifyOne(s.(core := c, running := s.running - {t}, finished := s.finished + {t}), n)))
    case TokenArrives(id, n) =>
      (match AddNewToken(s.core, id)
       case Panic => Panic
       case Done(c) => Done(NotifyOne(s.(core := c), n)))
    case TokenFails(error) => Done(NotifyAll(s.(core := Poison(s.core, error))))
    case SpuriousWakeup(t) => Done(s.(sleeping := s.sleeping - {t}, woken := s.woken + {t}))
  }

  /** A whole run: where it stands, or that it panicked, or that it took a disabled action. */
  datatype RunResult = At(s: Sys) | Panicked | Illegal

  function Extend(r: RunResult, a: Action): RunResult
  {
    match r
    case At(s) =>
      if !Enabled(s, a) then Illegal else
      (match Next(s, a) case Panic => Panicked case Done(s') => At(s'))
    case _ => r
  }

  function Run(pendingJobs: nat, actions: seq<Action>): (r: RunResult)
  {
    if actions == [] then At(Init(pendingJobs))
    else Extend(Run(pendingJobs, actions[..|actions| - 1]), actions[|actions| - 1])
  }

  function Acquires(actions: seq<Action>): (n: nat)
  {
    if actions == [] then 0
    else Acquires(actions[..|actions| - 1]) + (if actions[|actions| - 1].Acquire? then 1 else 0)
  }

  /** No wake-up is lost: while some thread sleeps, every free token has a
      notification on its way. */
  ghost predicate NoLostWakeup(s: Sys)
  {
    s.sleeping != {} ==> |s.core.tokens| - s.core.active <= |s.woken|
  }

  ghost predicate Disjoint(s: Sys)
  {
    && s.sleeping !! s.woken && s.sleeping !! s.running && s.sleeping !! s.finished && s.sleeping !! s.raised
    && s.woken !! s.running && s.woken !! s.finished && s.woken !! s.raised
    && s.running !! s.finished && s.running !! s.raised
    && s.finished !! s.raised
  }

  /** The invariant, with up to `slack` free tokens whose notification is not sent yet. */
  ghost predicate InvUpTo(pendingJobs: nat, s: Sys, slack: nat)
  {
    && CoreInv(s.core)
    && Disjoint(s)
    && s.core.active == |s.running|
    && s.core.pending + |s.finished| == pendingJobs
    && (s.core.poisoned ==> s.sleeping == {})
    && (s.sleeping != {} ==> |s.core.tokens| - s.core.active <= |s.woken| + slack)
  }

  ghost predicate Inv(pendingJobs: nat, s: Sys)
  {
    InvUpTo(pendingJobs, s, 0)
  }

  lemma AcquireOnceKeeps(pendingJobs: nat, s: Sys, t: Tid)
    requires InvUpTo(pendingJobs, s, 1) && IsNew(s, t)
    ensures AcquireOnce(s, t).Panic? <==> !s.core.poisoned && s.core.pending == 0
    ensures AcquireOnce(s, t).Done? ==> Inv(pendingJobs, AcquireOnce(s, t).value)
    ensures AcquireOnce(s, t).Done? ==> Entered(AcquireOnce(s, t).value) == Entered(s) + 1
  {
    TryStartJobKeeps(s.core);
  }

  lemma NotifyOneKeeps(pendingJobs: nat, s: Sys, t: Tid)
    requires InvUpTo(pendingJobs, s, 1) && ValidNotify(s, t)
    ensures Inv(pendingJobs, NotifyOne(s, t)) && Entered(NotifyOne(s, t)) == Entered(s)
  {
  }

  lemma FinishKeeps(pendingJobs: nat, s: Sys, t: Tid, n: Tid)
    requires Inv(pendingJobs, s) && t in s.running && ValidNotify(s, n)
    ensures Next(s, Finish(t, n)).Done?
    ensures Inv(pendingJobs, Next(s, Finish(t, n)).value)
    ensures Entered(Next(s, Finish(t, n)).value) == Entered(s)
  {
    JobFinishedKeeps(s.core);
    var s' := s.(core := JobFinished(s.core).value, running := s.running - {t}, finished := s.finished + {t});
    NotifyOneKeeps(pendingJobs, s', n);
  }

  lemma TokenKeeps(pendingJobs: nat, s: Sys, id: nat, n: Tid)
    requires Inv(pendingJobs, s) && ValidNotify(s, n)
    ensures Next(s, TokenArrives(id, n)).Done?
    ensures Inv(pendingJobs, Next(s, TokenArrives(id, n)).value)
    ensures Entered(Next(s, TokenArrives(id, n)).value) == Entered(s)
  {
    AddNewTokenKeeps(s.core, id);
    NotifyOneKeeps(pendingJobs, s.(core := AddNewToken(s.core, id).value), n);
  }

  /** One step: the invariant is kept, and the exact steps on which an assertion fires. */
  lemma StepKeeps(pendingJobs: nat, s: Sys, a: Action)
    requires Inv(pendingJobs, s) && Enabled(s, a)
    ensures Next(s, a).Panic? <==> !s.core.poisoned && s.core.pending == 0 && (a.Acquire? || a.Resume?)
    ensures Next(s, a).Done? ==> Inv(pendingJobs, Next(s, a).value)
    ensures Next(s, a).Done? ==> Entered(Next(s, a).value) == Entered(s) + (if a.Acquire? then 1 else 0)
  {
    match a {
      case Acquire(t) => AcquireOnceKeeps(pendingJobs, s, t);
      case Resume(t) => AcquireOnceKeeps(pendingJobs, s.(woken := s.woken - {t}), t);
      case Finish(t, n) => FinishKeeps(pendingJobs, s, t, n);
      case TokenArrives(id, n) => TokenKeeps(pendingJobs, s, id, n);
      case TokenFails(_) =>
      case SpuriousWakeup(t) =>
    }
  }

  lemma {:induction false} RunKeeps(pendingJobs: nat, actions: seq<Action>)
    ensures var r := Run(pendingJobs, actions);
            r.At? ==> Inv(pendingJobs, r.s) && Entered(r.s) == Acquires(actions)
  {
    if actions != [] {
      var before, a := actions[..|actions| - 1], actions[|actions| - 1];
      RunKeeps(pendingJobs, before);
      var r := Run(pendingJobs, before);
      if r.At? && Enabled(r.s, a) { StepKeeps(pendingJobs, r.s, a); }
    }
  }

  /** In every run, no wake-up is lost and the implicit token is still in the pool. */
  lemma EveryRunLosesNoWakeup(pendingJobs: nat, actions: seq<Action>)
    requires Run(pendingJobs, actions).At?
    ensures var s := Run(pendingJobs, actions).s;
            && NoLostWakeup(s)
            && s.core.tokens != [] && s.core.tokens[0] == Implicit
            && s.core.active == |s.running| <= |s.core.tokens|
  {
    RunKeeps(pendingJobs, actions);
  }

  /** In every run, the next step trips an assertion exactly when it is a pass through
      `acquire` on a healthy limiter that has no pending job left. */
  lemma AssertionFiresExactly(pendingJobs: nat, actions: seq<Action>, a: Action)
    requires Run(pendingJobs, actions).At? && Enabled(Run(pendingJobs, actions).s, a)
    ensures var s := Run(pendingJobs, actions).s;
            Extend(At(s), a).Panicked? <==>
            !s.core.poisoned && s.core.pending == 0 && (a.Acquire? || a.Resume?)
  {
    RunKeeps(pendingJobs, actions);
    StepKeeps(pendingJobs, Run(pendingJobs, actions).s, a);
  }

  /** As long as `acquire` is called at most once per announced job, no assertion ever fires. */
  lemma {:induction false} WithinBudgetNeverPanics(pendingJobs: nat, actions: seq<Action>)
    requires Acquires(actions) <= pendingJobs
    ensures !Run(pendingJobs, actions).Panicked?
  {
    if actions != [] {
      var before, a := actions[..|actions| - 1], actions[|actions| - 1];
      WithinBudgetNeverPanics(pendingJobs, before);
      var r := Run(pendingJobs, before);
      if r.At? && Enabled(r.s, a) {
        RunKeeps(pendingJobs, before);
        StepKeeps(pendingJobs, r.s, a);
      }
    }
  }

  /** A blocked acquirer is never stranded: some job is active, and whichever active job
      finishes next, the thread it notifies finds a token and starts. */
  lemma BlockedImpliesProgress(pendingJobs: nat, actions: seq<Action>)
    requires Run(pendingJobs, actions).At? && Acquires(actions) <= pendingJobs
    ensures var s := Run(pendingJobs, actions).s;
            s.sleeping != {} && s.woken == {} ==>
              && s.running != {}
              && forall t, n | t in s.running && n in s.sleeping ::
                   var s1 := Extend(At(s), Finish(t, n));
                   && s1.At? && s1.s.woken == {n} && s1.s.core.active < |s1.s.core.tokens|
                   && var s2 := Extend(s1, Resume(n));
                   && s2.At? && n in s2.s.running
  {
    RunKeeps(pendingJobs, actions);
    var s := Run(pendingJobs, actions).s;
    forall t, n | s.sleeping != {} && s.woken == {} && t in s.running && n in s.sleeping
      ensures var s1 := Extend(At(s), Finish(t, n));
              && s1.At? && s1.s.woken == {n} && s1.s.core.active < |s1.s.core.tokens|
              && var s2 := Extend(s1, Resume(n));
              && s2.At? && n in s2.s.running
    {
      FinishHandsOver(pendingJobs, s, t, n);
    }
  }

  lemma FinishFrees(pendingJobs: nat, s: Sys, t: Tid, n: Tid)
    requires Inv(pendingJobs, s) && Entered(s) <= pendingJobs
    requires s.woken == {} && t in s.running && n in s.sleeping
    ensures var s1 := Extend(At(s), Finish(t, n));
            && s1.At? && Inv(pendingJobs, s1.s) && Entered(s1.s) <= pendingJobs
            && s1.s.woken == {n} && s1.s.core.active < |s1.s.core.tokens| && !s1.s.core.poisoned
  {
    JobFinishedKeeps(s.core);
    StepKeeps(pendingJobs, s, Finish(t, n));
  }

  lemma ResumeStarts(pendingJobs: nat, s: Sys, n: Tid)
    requires Inv(pendingJobs, s) && Entered(s) <= pendingJobs && n in s.woken
    requires s.core.active < |s.core.tokens| && !s.core.poisoned
    ensures var s1 := Extend(At(s), Resume(n));
            s1.At? && n in s1.s.running
  {
    StepKeeps(pendingJobs, s, Resume(n));
    TryStartJobKeeps(s.core);
  }

  lemma FinishHandsOver(pendingJobs: nat, s: Sys, t: Tid, n: Tid)
    requires Inv(pendingJobs, s) && Entered(s) <= pendingJobs
    requires s.woken == {} && t in s.running && n in s.sleeping
    ensures var s1 := Extend(At(s), Finish(t, n));
            && s1.At? && s1.s.woken == {n} && s1.s.core.active < |s1.s.core.tokens|
            && var s2 := Extend(s1, Resume(n));
            && s2.At? && n in s2.s.running
  {
    FinishFrees(pendingJobs, s, t, n);
    ResumeStarts(pendingJobs, Extend(At(s), Finish(t, n)).s, n);
  }

  /** The assertions of `finished` pass exactly when every announced job has finished. */
  lemma FinishedAssertsExactly(pendingJobs: nat, actions: seq<Action>)
    requires Run(pendingJobs, actions).At?
    ensures var s := Run(pendingJobs, actions).s;
            AssertDone(s.core) <==> |s.finished| == pendingJobs
  {
    RunKeeps(pendingJobs, actions);
  }

  ghost predicate Quiet(s: Sys)
  {
    s.sleeping == {} && s.woken == {} && s.running == {}
  }

  ghost function Unfinished(s: Sys): nat
  {
    |s.sleeping| + |s.woken| + |s.running|
  }

  /** No deadlock: from any point of any run that stays within the budget, the threads
      that entered can all be driven out without a single further token arriving. */
  lemma {:induction false} CanAlwaysDrain(pendingJobs: nat, actions: seq<Action>) returns (more: seq<Action>)
    requires Run(pendingJobs, actions).At? && Acquires(actions) <= pendingJobs
    ensures Run(pendingJobs, actions + more).At? && Quiet(Run(pendingJobs, actions + more).s)
    ensures OnlyProgress(more)
    decreases Unfinished(Run(pendingJobs, actions).s), |Run(pendingJobs, actions).s.woken|
  {
    if Quiet(Run(pendingJobs, actions).s) {
      more := [];
      assert actions + [] == actions;
    } else {
      var a := ProgressStep(pendingJobs, actions);
      var rest := CanAlwaysDrain(pendingJobs, actions + [a]);
      more := [a] + rest;
      Regroup(actions, a, rest);
    }
  }

  ghost predicate OnlyProgress(actions: seq<Action>)
  {
    forall i :: 0 <= i < |actions| ==> actions[i].Resume? || actions[i].Finish?
  }

  lemma Regroup(actions: seq<Action>, a: Action, rest: seq<Action>)
    ensures actions + ([a] + rest) == (actions + [a]) + rest
  {
  }

  lemma ProgressStep(pendingJobs: nat, actions: seq<Action>) returns (a: Action)
    requires Run(pendingJobs, actions).At? && Acquires(actions) <= pendingJobs
    requires !Quiet(Run(pendingJobs, actions).s)
    ensures a.Resume? || a.Finish?
    ensures Run(pendingJobs, actions + [a]).At? && Acquires(actions + [a]) == Acquires(actions)
    ensures var s, s' := Run(pendingJobs, actions).s, Run(pendingJobs, actions + [a]).s;
            Unfinished(s') < Unfinished(s) || (Unfinished(s') == Unfinished(s) && |s'.woken| < |s.woken|)
  {
    var s := Run(pendingJobs, actions).s;
    RunKeeps(pendingJobs, actions);
    a := ProgressAction(s);
    RunSnoc(pendingJobs, actions, a);
    ProgressShrinks(pendingJobs, s, a);
  }

  ghost function ProgressAction(s: Sys): (a: Action)
    requires !Quiet(s)
    requires s.sleeping != {} && s.woken == {} ==> s.running != {}
    ensures Enabled(s, a)
    ensures if s.woken != {} then a.Resume? else a.Finish?
  {
    if s.woken != {} then (var t :| t in s.woken; Resume(t))
    else
      var t :| t in s.running;
      if s.sleeping == {} then Finish(t, 0) else (var n :| n in s.sleeping; Finish(t, n))
  }

  lemma ProgressShrinks(pendingJobs: nat, s: Sys, a: Action)
    requires Inv(pendingJobs, s) && Entered(s) <= pendingJobs && Enabled(s, a)
    requires if s.woken != {} then a.Resume? else a.Finish?
    ensures Next(s, a).Done?
    ensures var s' := Next(s, a).value;
            Unfinished(s') < Unfinished(s) || (Unfinished(s') == Unfinished(s) && |s'.woken| < |s.woken|)
  {
    StepKeeps(pendingJobs, s, a);
    if a.Resume? { TryStartJobKeeps(s.core); } else { JobFinishedKeeps(s.core); }
  }

  lemma RunSnoc(pendingJobs: nat, actions: seq<Action>, a: Action)
    ensures Run(pendingJobs, actions + [a]) == Extend(Run(pendingJobs, actions), a)
    ensures Acquires(actions + [a]) == Acquires(actions) + (if a.Acquire? then 1 else 0)
  {
    assert (actions + [a])[..|actions + [a]| - 1] == actions;
  }
}
