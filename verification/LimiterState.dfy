/** The counters and token pool that the concurrency limiter keeps under its mutex. */
module LimiterState {
  import opened Wrappers

  datatype Token = Implicit | Explicit(id: nat)

  datatype Core = Core(
    pending: nat,
    active: nat,
    tokens: seq<Token>,
    poisoned: bool,
    storedError: Option<string>
  )

  /** What a thread learns when it asks to start a job. */
  datatype Attempt = Started | Blocked | Failed(error: Option<string>)

  const MAX_EXTRA_CAPACITY := 2

  function Max(a: nat, b: nat): (m: nat)
    ensures m >= a && m >= b && (m == a || m == b)
  {
    if a < b then b else a
  }

  function Truncate(s: seq<Token>, n: nat): (r: seq<Token>)
    ensures r <= s && |r| <= n
    ensures |r| == n || r == s
  {
    if n < |s| then s[..n] else s
  }

  function NewCore(pendingJobs: nat): (c: Core)
  {
    Core(pendingJobs, 0, [Implicit], false, None)
  }

  /** Both conditions of `assert_invariants`. */
  predicate AssertInvariants(c: Core)
  {
    c.active <= c.pending && c.active <= |c.tokens|
  }

  predicate AssertDone(c: Core)
  {
    c.pending == 0 && c.active == 0
  }

  function Trimmed(c: Core): (r: Core)
  {
    var tokens := Truncate(c.tokens, Max(c.pending, 1));
    c.(tokens := Truncate(tokens, Max(c.active + MAX_EXTRA_CAPACITY, 1)))
  }

  function DropExcessCapacity(c: Core): (r: Outcome<Core>)
  {
    if !AssertInvariants(c) || !AssertInvariants(Trimmed(c)) then Panic else Done(Trimmed(c))
  }

  function AddNewToken(c: Core, id: nat): (r: Outcome<Core>)
  {
    DropExcessCapacity(c.(tokens := c.tokens + [Explicit(id)]))
  }

  function JobStarted(c: Core): (r: Outcome<Core>)
  {
    if !AssertInvariants(c) then Panic else
    match DropExcessCapacity(c.(active := c.active + 1))
    case Panic => Panic
    case Done(c') => if AssertInvariants(c') then Done(c') else Panic
  }

  function TryStartJob(c: Core): (r: Outcome<(Core, Attempt)>)
  {
    if c.poisoned then
      Done((c.(storedError := None), Failed(c.storedError)))
    else if c.active < |c.tokens| then
      match JobStarted(c)
      case Panic => Panic
      case Done(c') => Done((c', Started))
    else
      Done((c, Blocked))
  }

  /** Subtracting below zero panics as well. */
  function JobFinished(c: Core): (r: Outcome<Core>)
  {
    if !AssertInvariants(c) || c.pending == 0 || c.active == 0 then Panic else
    var c' := c.(pending := c.pending - 1, active := c.active - 1);
    if !AssertInvariants(c') then Panic else
    match DropExcessCapacity(c')
    case Panic => Panic
    case Done(c'') => if AssertInvariants(c'') then Done(c'') else Panic
  }

  function Poison(c: Core, error: string): (r: Core)
  {
    c.(poisoned := true, storedError := Some(error))
  }

  /** What holds of the counters whenever the mutex is free. The pool starts with
      the implicit token and never outgrows the jobs that are left. */
  ghost predicate CoreInv(c: Core)
  {
    && AssertInvariants(c)
    && 1 <= |c.tokens| <= Max(c.pending, 1)
    && c.tokens[0] == Implicit
    && forall i :: 1 <= i < |c.tokens| ==> c.tokens[i].Explicit?
  }

  /** Which of `tokens` a limiter with these counters keeps: the oldest, no more than can still
      be used, and no more than MAX_EXTRA_CAPACITY beyond the active jobs. */
  ghost predicate KeepsOldest(tokens: seq<Token>, c: Core)
  {
    && c.tokens <= tokens
    && |c.tokens| <= Max(c.pending, 1) && |c.tokens| <= c.active + MAX_EXTRA_CAPACITY
    && (c.tokens == tokens || |c.tokens| == Max(c.pending, 1) || |c.tokens| == c.active + MAX_EXTRA_CAPACITY)
  }

  lemma AddNewTokenKeeps(c: Core, id: nat)
    requires CoreInv(c)
    ensures AddNewToken(c, id).Done?
    ensures var c' := AddNewToken(c, id).value;
            && CoreInv(c')
            && c'.pending == c.pending && c'.active == c.active && c'.poisoned == c.poisoned
            && KeepsOldest(c.tokens + [Explicit(id)], c')
  {
  }

  lemma JobFinishedKeeps(c: Core)
    requires CoreInv(c) && 0 < c.active
    ensures JobFinished(c).Done?
    ensures var c' := JobFinished(c).value;
            && CoreInv(c')
            && c'.pending == c.pending - 1 && c'.active == c.active - 1 && c'.poisoned == c.poisoned
            && KeepsOldest(c.tokens, c')
            && (c.active < c.pending ==> c'.active < |c'.tokens|)
  {
  }

  /** Starting a job breaks an assertion exactly when no job is left to start. */
  lemma TryStartJobKeeps(c: Core)
    requires CoreInv(c)
    ensures TryStartJob(c).Panic? <==> !c.poisoned && c.pending == 0
    ensures TryStartJob(c).Done? ==>
              var (c', attempt) := TryStartJob(c).value;
              && CoreInv(c') && c'.pending == c.pending && c'.poisoned == c.poisoned
              && (attempt.Failed? <==> c.poisoned)
              && (attempt.Started? <==> !c.poisoned && c.active < |c.tokens|)
              && c'.active == c.active + (if attempt.Started? then 1 else 0)
              && (if attempt.Started? then KeepsOldest(c.tokens, c') else c'.tokens == c.tokens)
  {
  }
}

/** The mutable state object itself, proved against the functions above. */
module LimiterObject {
  import opened Wrappers
  import opened LimiterState

  class ConcurrencyLimiterState {
    var pendingJobs: nat
    var activeJobs: nat
    var poisoned: bool
    var storedError: Option<string>
    var tokens: seq<Token>

    function Model(): (c: Core)
      reads this
    {
      Core(pendingJobs, activeJobs, tokens, poisoned, storedError)
    }

    constructor (pending: nat)
      ensures Model() == NewCore(pending) && CoreInv(Model())
    {
      pendingJobs, activeJobs, poisoned, storedError := pending, 0, false, None;
      tokens := [Implicit];
    }

    method DropExcessCapacity()
      requires LimiterState.DropExcessCapacity(Model()).Done?
      modifies this`tokens
      ensures Done(Model()) == old(LimiterState.DropExcessCapacity(Model()))
    {
      assert AssertInvariants(Model());
      tokens := Truncate(tokens, Max(pendingJobs, 1));
      tokens := Truncate(tokens, Max(activeJobs + MAX_EXTRA_CAPACITY, 1));
      assert AssertInvariants(Model());
    }

    method AddNewToken(id: nat)
      requires CoreInv(Model())
      modifies this`tokens
      ensures CoreInv(Model())
      ensures Done(Model()) == old(LimiterState.AddNewToken(Model(), id))
    {
      AddNewTokenKeeps(Model(), id);
      tokens := tokens + [Explicit(id)];
      DropExcessCapacity();
    }

    /** Callable exactly when `try_start_job` does not panic. */
    method TryStartJob() returns (attempt: Attempt)
      requires CoreInv(Model())
      requires poisoned || 0 < pendingJobs
      modifies this
      ensures CoreInv(Model())
      ensures Done((Model(), attempt)) == old(LimiterState.TryStartJob(Model()))
    {
      TryStartJobKeeps(Model());
      if poisoned {
        attempt := Failed(storedError);
        storedError := None;
      } else if activeJobs < |tokens| {
        assert AssertInvariants(Model());
        activeJobs := activeJobs + 1;
        DropExcessCapacity();
        assert AssertInvariants(Model());
        attempt := Started;
      } else {
        attempt := Blocked;
      }
    }

    method JobFinished()
      requires CoreInv(Model()) && 0 < activeJobs
      modifies this
      ensures CoreInv(Model())
      ensures Done(Model()) == old(LimiterState.JobFinished(Model()))
    {
      JobFinishedKeeps(Model());
      pendingJobs := pendingJobs - 1;
      activeJobs := activeJobs - 1;
      assert AssertInvariants(Model());
      DropExcessCapacity();
      assert AssertInvariants(Model());
    }

    method Poison(error: string)
      modifies this
      ensures Model() == old(LimiterState.Poison(Model(), error))
    {
      poisoned := true;
      storedError := Some(error);
    }
  }
}
