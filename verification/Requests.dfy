/** The readiness-based request loop over an arbitrary scheme. The scheme is an oracle: the
    answer to its n-th call may be anything. */
module Requests {
  import opened Wrappers

  type Tag = nat

  datatype Op = Op(code: nat, nonblock: bool)

  /** `op` is None for an opcode the loop does not support. */
  datatype Request =
    | Call(tag: Tag, op: Option<Op>)
    | SendFd(tag: Tag)
    | RecvFd(tag: Tag)
    | Cancel(tag: Tag)
    | OnClose(id: nat)
    | OtherMessage

  datatype Opened = ThisScheme(number: nat) | OtherScheme(fd: nat) | OtherSchemeMultiple(count: nat) | OpenWouldBlock

  datatype Answer = Regular(result: Result<nat>) | Open(handle: Result<Opened>)

  datatype Outcome = Plain(number: nat) | ExternalFd(fd: nat) | ExternalFds(count: nat)

  datatype Response = Response(tag: Tag, result: Result<Outcome>)

  /** `log` lists the calls made to the scheme that expect an answer; `arrived` and `written`
      are history. */
  datatype Loop = Loop(
    inbox: seq<Request>,
    out: seq<Response>,
    parked: map<Tag, Op>,
    log: seq<Tag>,
    arrived: seq<Request>,
    written: seq<Response>
  )

  type Oracle = nat -> Answer

  const RECV_OP := Op(0, false)

  function Respond(tag: Tag, a: Answer): (r: Response)
  {
    match a
    case Regular(Ok(n)) => Response(tag, Ok(Plain(n)))
    case Regular(Err(e)) => Response(tag, Err(e))
    case Open(Ok(ThisScheme(n))) => Response(tag, Ok(Plain(n)))
    case Open(Ok(OtherScheme(fd))) => Response(tag, Ok(ExternalFd(fd)))
    case Open(Ok(OtherSchemeMultiple(n))) => Response(tag, Ok(ExternalFds(n)))
    case Open(Ok(OpenWouldBlock)) => Response(tag, Err(EWOULDBLOCK))
    case Open(Err(e)) => Response(tag, Err(e))
  }

  predicate WouldBlock(a: Answer)
  {
    match a
    case Regular(r) => r == Err(EWOULDBLOCK)
    case Open(r) => r == Err(EWOULDBLOCK)
  }

  function Push(s: Loop, r: Response): (s': Loop)
  {
    s.(out := s.out + [r])
  }

  function Asked(s: Loop, tag: Tag): (s': Loop)
  {
    s.(log := s.log + [tag])
  }

  /** Handing an operation to the scheme: parked when it would block and may. */
  function Handle(s: Loop, tag: Tag, op: Op, oracle: Oracle): (s': Loop)
  {
    var a := oracle(|s.log|);
    if WouldBlock(a) && !op.nonblock then Asked(s, tag).(parked := s.parked[tag := op])
    else Push(Asked(s, tag), Respond(tag, a))
  }

  function ProcessOne(s: Loop, r: Request, oracle: Oracle): (s': Loop)
  {
    match r
    case Cancel(tag) =>
      if tag in s.parked then Push(s.(parked := s.parked - {tag}), Response(tag, Err(ECANCELED))) else s
    case OnClose(_) => s
    case OtherMessage => s
    case SendFd(tag) => Push(Asked(s, tag), Respond(tag, oracle(|s.log|)))
    case RecvFd(tag) => Handle(s, tag, RECV_OP, oracle)
    case Call(tag, None) => Push(s, Response(tag, Err(EOPNOTSUPP)))
    case Call(tag, Some(op)) => Handle(s, tag, op, oracle)
  }

  function Process(s: Loop, oracle: Oracle): (s': Loop)
    decreases |s.inbox|
  {
    if s.inbox == [] then s else
    Process(ProcessOne(s.(inbox := s.inbox[1..]), s.inbox[0], oracle).(inbox := s.inbox[1..]), oracle)
  }

  /** Polling one request. One that is not parked is an error. */
  function PollOne(s: Loop, tag: Tag, oracle: Oracle): (r: Result<Loop>)
  {
    if tag !in s.parked then Err(EIO)
    else Ok(Handle(s.(parked := s.parked - {tag}), tag, s.parked[tag], oracle))
  }

  /** Polling a queue of requests stops at the first error. */
  function PollQueue(s: Loop, queue: seq<Tag>, oracle: Oracle): (r: (Loop, Result<()>))
    decreases |queue|
  {
    if queue == [] then (s, Ok(())) else
    match PollOne(s, queue[0], oracle)
    case Err(e) => (s, Err(e))
    case Ok(s1) => PollQueue(s1, queue[1..], oracle)
  }

  function Write(s: Loop, n: nat): (s': Loop)
    requires n <= |s.out|
  {
    s.(out := s.out[n..], written := s.written + s.out[..n])
  }

  // ---------------------------------------------------------------- runs

  /** How often `t` must be answered because of a request. */
  function Owes(r: Request, t: Tag): (n: nat)
  {
    if (r.Call? || r.SendFd? || r.RecvFd?) && r.tag == t then 1 else 0
  }

  function OwedIn(rs: seq<Request>, t: Tag): (n: nat)
  {
    if rs == [] then 0 else Owes(rs[0], t) + OwedIn(rs[1..], t)
  }

  function AnsweredIn(rs: seq<Response>, t: Tag): (n: nat)
  {
    if rs == [] then 0 else (if rs[0].tag == t then 1 else 0) + AnsweredIn(rs[1..], t)
  }

  function ParkedCount(s: Loop, t: Tag): (n: nat)
  {
    if t in s.parked then 1 else 0
  }

  /** How often `t` waits to be answered to the kernel. */
  function Outstanding(s: Loop, t: Tag): (n: nat)
  {
    OwedIn(s.inbox, t) + ParkedCount(s, t) + AnsweredIn(s.out, t)
  }

  datatype Action =
    | DoRead(batch: seq<Request>)
    | DoProcess
    | DoPoll(tag: Tag)
    | DoPollAll(order: seq<Tag>)
    | DoWrite(n: nat)

  ghost predicate Enumerates(order: seq<Tag>, keys: set<Tag>)
  {
    (forall i, j :: 0 <= i < j < |order| ==> order[i] != order[j]) && forall t :: t in order <==> t in keys
  }

  /** A batch is read only when the last one is processed, and the kernel does not use a tag
      again while it waits for the answer to it. */
  ghost predicate Enabled(s: Loop, a: Action)
  {
    match a
    case DoRead(batch) => s.inbox == [] && forall t :: Outstanding(s, t) + OwedIn(batch, t) <= 1
    case DoPollAll(order) => Enumerates(order, s.parked.Keys)
    case DoWrite(n) => n <= |s.out|
    case _ => true
  }

  ghost function Next(s: Loop, a: Action, oracle: Oracle): (s': Loop)
    requires Enabled(s, a)
  {
    match a
    case DoRead(batch) => s.(inbox := batch, arrived := s.arrived + batch)
    case DoProcess => Process(s, oracle)
    case DoPoll(tag) => (match PollOne(s, tag, oracle) case Ok(s1) => s1 case Err(_) => s)
    case DoPollAll(order) => PollQueue(s, order, oracle).0
    case DoWrite(n) => Write(s, n)
  }

  const EMPTY := Loop([], [], map[], [], [], [])

  ghost function Run(actions: seq<Action>, oracle: Oracle): (r: Option<Loop>)
  {
    if actions == [] then Some(EMPTY) else
    var last := |actions| - 1;
    match Run(actions[..last], oracle)
    case None => None
    case Some(s) => if Enabled(s, actions[last]) then Some(Next(s, actions[last], oracle)) else None
  }

  // ---------------------------------------------------------------- conservation

  /** Where the answers owed under `t` are. */
  ghost predicate Balanced(s: Loop, t: Tag)
  {
    OwedIn(s.arrived, t) == Outstanding(s, t) + AnsweredIn(s.written, t)
  }

  /** Every request that arrived is in exactly one place, nothing outstanding is there twice,
      and nothing parked was asked not to block. */
  ghost predicate Inv(s: Loop)
  {
    && (forall t :: Balanced(s, t))
    && (forall t :: Outstanding(s, t) <= 1)
    && (forall t :: t in s.parked ==> !s.parked[t].nonblock)
  }

  lemma {:induction false} AnsweredConcat(a: seq<Response>, b: seq<Response>, t: Tag)
    ensures AnsweredIn(a + b, t) == AnsweredIn(a, t) + AnsweredIn(b, t)
    decreases |a|
  {
    if a == [] {
      assert a + b == b;
    } else {
      AnsweredConcat(a[1..], b, t);
      assert (a + b)[1..] == a[1..] + b;
    }
  }

  lemma {:induction false} OwedConcat(a: seq<Request>, b: seq<Request>, t: Tag)
    ensures OwedIn(a + b, t) == OwedIn(a, t) + OwedIn(b, t)
    decreases |a|
  {
    if a == [] {
      assert a + b == b;
    } else {
      OwedConcat(a[1..], b, t);
      assert (a + b)[1..] == a[1..] + b;
    }
  }

  lemma PushAnswers(out: seq<Response>, r: Response, t: Tag)
    ensures AnsweredIn(out + [r], t) == AnsweredIn(out, t) + if r.tag == t then 1 else 0
  {
    AnsweredConcat(out, [r], t);
    assert [r][1..] == [];
  }

  /** What no step of the loop touches besides reading and writing. */
  ghost predicate SameEnds(s: Loop, s': Loop)
  {
    s'.inbox == s.inbox && s'.arrived == s.arrived && s'.written == s.written
  }

  ghost predicate NoneNonblock(parked: map<Tag, Op>)
  {
    forall t :: t in parked ==> !parked[t].nonblock
  }

  /** An operation handed to the scheme under `tag` ends up parked or answered under `tag`. */
  lemma HandleConserves(s: Loop, tag: Tag, op: Op, oracle: Oracle, t: Tag)
    requires tag !in s.parked && NoneNonblock(s.parked)
    ensures var s' := Handle(s, tag, op, oracle);
            && SameEnds(s, s') && NoneNonblock(s'.parked)
            && ParkedCount(s', t) + AnsweredIn(s'.out, t)
               == ParkedCount(s, t) + AnsweredIn(s.out, t) + if t == tag then 1 else 0
  {
    PushAnswers(s.out, Respond(tag, oracle(|s.log|)), t);
  }

  lemma ProcessOneConserves(s: Loop, r: Request, oracle: Oracle, t: Tag)
    requires NoneNonblock(s.parked) && (r.Call? || r.RecvFd? ==> r.tag !in s.parked)
    ensures var s' := ProcessOne(s, r, oracle);
            && SameEnds(s, s') && NoneNonblock(s'.parked)
            && ParkedCount(s', t) + AnsweredIn(s'.out, t) == ParkedCount(s, t) + AnsweredIn(s.out, t) + Owes(r, t)
  {
    match r {
      case Cancel(tag) => PushAnswers(s.out, Response(tag, Err(ECANCELED)), t);
      case SendFd(tag) => PushAnswers(s.out, Respond(tag, oracle(|s.log|)), t);
      case RecvFd(tag) => HandleConserves(s, tag, RECV_OP, oracle, t);
      case Call(tag, None) => PushAnswers(s.out, Response(tag, Err(EOPNOTSUPP)), t);
      case Call(tag, Some(op)) => HandleConserves(s, tag, op, oracle, t);
      case _ =>
    }
  }

  lemma ProcessOneKeeps(s: Loop, oracle: Oracle)
    requires Inv(s) && s.inbox != []
    ensures Inv(ProcessOne(s.(inbox := s.inbox[1..]), s.inbox[0], oracle))
    ensures ProcessOne(s.(inbox := s.inbox[1..]), s.inbox[0], oracle).inbox == s.inbox[1..]
  {
    var r, s0 := s.inbox[0], s.(inbox := s.inbox[1..]);
    var s' := ProcessOne(s0, r, oracle);
    if r.Call? || r.RecvFd? { assert Outstanding(s, r.tag) <= 1; }
    ProcessOneConserves(s0, r, oracle, 0);
    forall t ensures Balanced(s', t) && Outstanding(s', t) == Outstanding(s, t) {
      ProcessOneConserves(s0, r, oracle, t);
      assert Balanced(s, t);
    }
    forall t ensures Outstanding(s', t) <= 1 {
      assert Outstanding(s, t) <= 1;
    }
  }

  lemma {:induction false} ProcessKeeps(s: Loop, oracle: Oracle)
    requires Inv(s)
    ensures Inv(Process(s, oracle)) && Process(s, oracle).inbox == []
    decreases |s.inbox|
  {
    if s.inbox != [] {
      ProcessOneKeeps(s, oracle);
      ProcessKeeps(ProcessOne(s.(inbox := s.inbox[1..]), s.inbox[0], oracle), oracle);
    }
  }

  lemma PollOneKeeps(s: Loop, tag: Tag, oracle: Oracle)
    requires Inv(s) && tag in s.parked
    ensures var s' := PollOne(s, tag, oracle).value;
            Inv(s') && s'.log == s.log + [tag] && s'.parked.Keys - {tag} == s.parked.Keys - {tag}
  {
    var s0 := s.(parked := s.parked - {tag});
    var s' := PollOne(s, tag, oracle).value;
    HandleConserves(s0, tag, s.parked[tag], oracle, 0);
    forall t ensures Balanced(s', t) && Outstanding(s', t) <= 1 {
      HandleConserves(s0, tag, s.parked[tag], oracle, t);
      assert Balanced(s, t) && Outstanding(s, t) <= 1;
    }
  }

  /** Polling a queue of distinct parked requests makes exactly one call for each, in order,
      and never fails. */
  lemma {:induction false} PollQueueKeeps(s: Loop, queue: seq<Tag>, oracle: Oracle)
    requires Inv(s) && (forall i, j :: 0 <= i < j < |queue| ==> queue[i] != queue[j])
    requires forall i :: 0 <= i < |queue| ==> queue[i] in s.parked
    ensures var (s', r) := PollQueue(s, queue, oracle);
            Inv(s') && r.Ok? && s'.log == s.log + queue
    decreases |queue|
  {
    if queue == [] {
      assert s.log + queue == s.log;
    } else {
      PollOneKeeps(s, queue[0], oracle);
      var s1 := PollOne(s, queue[0], oracle).value;
      forall i | 0 <= i < |queue[1..]| ensures queue[1..][i] in s1.parked {
        assert queue[1..][i] in s.parked.Keys - {queue[0]};
      }
      PollQueueKeeps(s1, queue[1..], oracle);
      assert s.log + [queue[0]] + queue[1..] == s.log + queue;
    }
  }

  lemma WriteKeeps(s: Loop, n: nat)
    requires Inv(s) && n <= |s.out|
    ensures Inv(Write(s, n))
  {
    var s' := Write(s, n);
    forall t ensures Balanced(s', t) && Outstanding(s', t) <= 1 {
      AnsweredConcat(s.out[..n], s.out[n..], t);
      AnsweredConcat(s.written, s.out[..n], t);
      assert s.out[..n] + s.out[n..] == s.out;
      assert Balanced(s, t) && Outstanding(s, t) <= 1;
    }
  }

  lemma ReadKeeps(s: Loop, batch: seq<Request>, oracle: Oracle)
    requires Inv(s) && Enabled(s, DoRead(batch))
    ensures Inv(Next(s, DoRead(batch), oracle))
  {
    var s' := Next(s, DoRead(batch), oracle);
    forall t ensures Balanced(s', t) && Outstanding(s', t) <= 1 {
      OwedConcat(s.arrived, batch, t);
      assert Balanced(s, t) && Outstanding(s, t) + OwedIn(batch, t) <= 1;
    }
  }

  lemma StepKeeps(s: Loop, a: Action, oracle: Oracle)
    requires Inv(s) && Enabled(s, a)
    ensures Inv(Next(s, a, oracle))
  {
    match a {
      case DoRead(batch) => ReadKeeps(s, batch, oracle);
      case DoProcess => ProcessKeeps(s, oracle);
      case DoPoll(tag) => if tag in s.parked { PollOneKeeps(s, tag, oracle); }
      case DoPollAll(order) => PollQueueKeeps(s, order, oracle);
      case DoWrite(n) => WriteKeeps(s, n);
    }
  }

  /** For every scheme and every sequence of reads, polls, cancellations and writes: each request
      that wants an answer is unprocessed, parked, queued or written, and in one place only. */
  lemma {:induction false} RequestsAreConserved(actions: seq<Action>, oracle: Oracle)
    requires Run(actions, oracle).Some?
    ensures Inv(Run(actions, oracle).value)
    decreases |actions|
  {
    if actions != [] {
      var last := |actions| - 1;
      RequestsAreConserved(actions[..last], oracle);
      StepKeeps(Run(actions[..last], oracle).value, actions[last], oracle);
    }
  }

  /** The loop after the first `k` requests of the batch. */
  function ProcessSome(s: Loop, k: nat, oracle: Oracle): (s': Loop)
    requires k <= |s.inbox|
    decreases k
  {
    if k == 0 then s else
    ProcessSome(ProcessOne(s.(inbox := s.inbox[1..]), s.inbox[0], oracle).(inbox := s.inbox[1..]), k - 1, oracle)
  }

  /** The invariant holds inside a batch as well: after any number of its requests, with the rest
      of the batch still to be processed. */
  lemma {:induction false} BatchKeeps(s: Loop, k: nat, oracle: Oracle)
    requires Inv(s) && k <= |s.inbox|
    ensures var s' := ProcessSome(s, k, oracle);
            Inv(s') && s'.inbox == s.inbox[k..] && Process(s', oracle) == Process(s, oracle)
    decreases k
  {
    if k > 0 {
      ProcessOneKeeps(s, oracle);
      var s1 := ProcessOne(s.(inbox := s.inbox[1..]), s.inbox[0], oracle);
      assert s1.(inbox := s.inbox[1..]) == s1;
      BatchKeeps(s1, k - 1, oracle);
      assert s.inbox[1..][k - 1..] == s.inbox[k..];
    }
  }

  /** Wherever the invariant holds, between batches or inside one: a cancelled request that is
      parked is answered with ECANCELED, without asking the scheme, and is outstanding only as
      that answer; a cancellation of anything else does nothing. */
  lemma CancelledOnce(s: Loop, oracle: Oracle, tag: Tag)
    requires Inv(s)
    ensures var s' := ProcessOne(s, Cancel(tag), oracle);
            if tag in s.parked then
              && s'.out == s.out + [Response(tag, Err(ECANCELED))] && AnsweredIn(s.out, tag) == 0
              && tag !in s'.parked && Outstanding(s', tag) == 1 && s'.log == s.log
            else s' == s
  {
    assert Outstanding(s, tag) <= 1;
    PushAnswers(s.out, Response(tag, Err(ECANCELED)), tag);
  }

  /** In every run and at every position `k` of its current batch: a request parked by then and
      cancelled there is answered once, with ECANCELED. */
  lemma CancelledInBatch(actions: seq<Action>, oracle: Oracle, k: nat, tag: Tag)
    requires Run(actions, oracle).Some? && k < |Run(actions, oracle).value.inbox|
    requires Run(actions, oracle).value.inbox[k] == Cancel(tag)
    requires tag in ProcessSome(Run(actions, oracle).value, k, oracle).parked
    ensures var s := ProcessSome(Run(actions, oracle).value, k, oracle);
            var s' := ProcessSome(Run(actions, oracle).value, k + 1, oracle);
            && s'.out == s.out + [Response(tag, Err(ECANCELED))] && AnsweredIn(s.out, tag) == 0
            && tag !in s'.parked && Outstanding(s', tag) == 1 && s'.log == s.log
  {
    RequestsAreConserved(actions, oracle);
    var s0 := Run(actions, oracle).value;
    BatchKeeps(s0, k, oracle);
    BatchKeeps(s0, k + 1, oracle);
    ProcessSomeStep(s0, k, oracle);
    var s := ProcessSome(s0, k, oracle);
    CancelledOnce(s, oracle, tag);
    var s' := ProcessSome(s0, k + 1, oracle);
    assert s'.parked == ProcessOne(s, Cancel(tag), oracle).parked;
    assert Outstanding(s', tag) <= 1;
    PushAnswers(s.out, Response(tag, Err(ECANCELED)), tag);
  }

  lemma {:induction false} ProcessSomeStep(s: Loop, k: nat, oracle: Oracle)
    requires k < |s.inbox| && ProcessSome(s, k, oracle).inbox == s.inbox[k..]
    ensures var t := ProcessSome(s, k, oracle);
            ProcessSome(s, k + 1, oracle)
            == ProcessOne(t.(inbox := t.inbox[1..]), s.inbox[k], oracle).(inbox := t.inbox[1..])
    decreases k
  {
    if k > 0 {
      var s1 := ProcessOne(s.(inbox := s.inbox[1..]), s.inbox[0], oracle).(inbox := s.inbox[1..]);
      assert s1.inbox[k - 1..] == s.inbox[k..] && s1.inbox[k - 1] == s.inbox[k];
      ProcessSomeStep(s1, k - 1, oracle);
    }
  }

  /** In every run: polling everything asks the scheme once for each parked request and for
      nothing else, and never fails. */
  lemma PollAllPollsEachOnce(actions: seq<Action>, oracle: Oracle, order: seq<Tag>)
    requires Run(actions, oracle).Some? && Enumerates(order, Run(actions, oracle).value.parked.Keys)
    ensures var s := Run(actions, oracle).value;
            var (s', r) := PollQueue(s, order, oracle);
            r.Ok? && s'.log == s.log + order
  {
    RequestsAreConserved(actions, oracle);
    PollQueueKeeps(Run(actions, oracle).value, order, oracle);
  }

  // ---------------------------------------------------------------- answers

  /** The answer is the scheme's to a call made for that request, or the loop's own to a
      cancellation or an unsupported opcode that did arrive. */
  ghost predicate Genuine(s: Loop, oracle: Oracle, r: Response)
  {
    || (exists k :: 0 <= k < |s.log| && s.log[k] == r.tag && r == Respond(r.tag, oracle(k)))
    || (Cancel(r.tag) in s.arrived && r.result == Err(ECANCELED))
    || (Call(r.tag, None) in s.arrived && r.result == Err(EOPNOTSUPP))
  }

  /** All answers given so far, in the order the kernel gets them. */
  function Answers(s: Loop): (rs: seq<Response>)
  {
    s.written + s.out
  }

  /** `s'` comes after `s`: answers are only added, at the end, and the new ones are genuine. */
  ghost predicate Extends(s: Loop, s': Loop, oracle: Oracle)
  {
    && s.log <= s'.log && s.arrived <= s'.arrived && Answers(s) <= Answers(s')
    && forall i :: |Answers(s)| <= i < |Answers(s')| ==> Genuine(s', oracle, Answers(s')[i])
  }

  ghost predicate InboxArrived(s: Loop)
  {
    forall r :: r in s.inbox ==> r in s.arrived
  }

  lemma GenuineStays(s: Loop, s': Loop, oracle: Oracle, r: Response)
    requires Genuine(s, oracle, r) && s.log <= s'.log && s.arrived <= s'.arrived
    ensures Genuine(s', oracle, r)
  {
  }

  lemma ExtendsTrans(s: Loop, s1: Loop, s2: Loop, oracle: Oracle)
    requires Extends(s, s1, oracle) && Extends(s1, s2, oracle)
    ensures Extends(s, s2, oracle)
  {
    forall i | |Answers(s)| <= i < |Answers(s2)| ensures Genuine(s2, oracle, Answers(s2)[i]) {
      if i < |Answers(s1)| { GenuineStays(s1, s2, oracle, Answers(s1)[i]); }
    }
  }

  lemma PushExtends(s: Loop, s0: Loop, r: Response, oracle: Oracle)
    requires Answers(s0) == Answers(s) && s.log <= s0.log && s.arrived <= s0.arrived && Genuine(s0, oracle, r)
    ensures Extends(s, Push(s0, r), oracle)
  {
    var s' := Push(s0, r);
    assert Answers(s') == Answers(s) + [r];
    GenuineStays(s0, s', oracle, r);
  }

  lemma HandleExtends(s: Loop, tag: Tag, op: Op, oracle: Oracle)
    ensures Extends(s, Handle(s, tag, op, oracle), oracle)
  {
    var a, s0 := oracle(|s.log|), Asked(s, tag);
    if !(WouldBlock(a) && !op.nonblock) {
      assert s0.log[|s.log|] == tag;
      PushExtends(s, s0, Respond(tag, a), oracle);
    }
  }

  lemma ProcessOneExtends(s: Loop, r: Request, oracle: Oracle)
    requires r in s.arrived
    ensures Extends(s, ProcessOne(s, r, oracle), oracle)
  {
    match r {
      case Cancel(tag) =>
        if tag in s.parked {
          PushExtends(s, s.(parked := s.parked - {tag}), Response(tag, Err(ECANCELED)), oracle);
        }
      case SendFd(tag) =>
        assert Asked(s, tag).log[|s.log|] == tag;
        PushExtends(s, Asked(s, tag), Respond(tag, oracle(|s.log|)), oracle);
      case RecvFd(tag) => HandleExtends(s, tag, RECV_OP, oracle);
      case Call(tag, None) => PushExtends(s, s, Response(tag, Err(EOPNOTSUPP)), oracle);
      case Call(tag, Some(op)) => HandleExtends(s, tag, op, oracle);
      case _ =>
    }
  }

  lemma {:induction false} ProcessExtends(s: Loop, oracle: Oracle)
    requires InboxArrived(s)
    ensures Extends(s, Process(s, oracle), oracle) && InboxArrived(Process(s, oracle))
    decreases |s.inbox|
  {
    if s.inbox != [] {
      var s0 := s.(inbox := s.inbox[1..]);
      var s1 := ProcessOne(s0, s.inbox[0], oracle);
      ProcessOneExtends(s0, s.inbox[0], oracle);
      assert s1.inbox == s.inbox[1..] && s1.arrived == s.arrived;
      ProcessExtends(s1, oracle);
      ExtendsTrans(s0, s1, Process(s1, oracle), oracle);
    }
  }

  lemma {:induction false} PollQueueExtends(s: Loop, queue: seq<Tag>, oracle: Oracle)
    ensures var s' := PollQueue(s, queue, oracle).0;
            Extends(s, s', oracle) && s'.inbox == s.inbox && s'.arrived == s.arrived
    decreases |queue|
  {
    if queue != [] && queue[0] in s.parked {
      var s1 := PollOne(s, queue[0], oracle).value;
      HandleExtends(s.(parked := s.parked - {queue[0]}), queue[0], s.parked[queue[0]], oracle);
      PollQueueExtends(s1, queue[1..], oracle);
      ExtendsTrans(s, s1, PollQueue(s, queue, oracle).0, oracle);
    }
  }

  lemma StepExtends(s: Loop, a: Action, oracle: Oracle)
    requires Enabled(s, a) && InboxArrived(s)
    ensures Extends(s, Next(s, a, oracle), oracle) && InboxArrived(Next(s, a, oracle))
  {
    match a {
      case DoRead(batch) =>
      case DoProcess => ProcessExtends(s, oracle);
      case DoPoll(tag) => PollQueueExtends(s, [tag], oracle);
        if tag in s.parked { assert [tag][1..] == []; }
      case DoPollAll(order) => PollQueueExtends(s, order, oracle);
      case DoWrite(n) => assert Answers(Write(s, n)) == Answers(s);
    }
  }

  /** For every run and every way to continue it: answers keep their order and are never lost,
      and every answer comes from a call made for its request. */
  lemma {:induction false} AnswersAreGenuine(before: seq<Action>, after: seq<Action>, oracle: Oracle)
    requires Run(before + after, oracle).Some?
    ensures Run(before, oracle).Some? && Extends(Run(before, oracle).value, Run(before + after, oracle).value, oracle)
    ensures InboxArrived(Run(before + after, oracle).value)
    decreases |before| + |after|, |after|
  {
    if after != [] {
      var last := |after| - 1;
      assert (before + after)[..|before + after| - 1] == before + after[..last];
      AnswersAreGenuine(before, after[..last], oracle);
      var s := Run(before + after[..last], oracle).value;
      StepExtends(s, after[last], oracle);
      ExtendsTrans(Run(before, oracle).value, s, Run(before + after, oracle).value, oracle);
    } else {
      assert before + after == before;
      if before != [] {
        var last := |before| - 1;
        assert before[..last] + [before[last]] == before;
        assert before[..last] + [] == before[..last];
        AnswersAreGenuine(before[..last], [], oracle);
        StepExtends(Run(before[..last], oracle).value, before[last], oracle);
      }
    }
  }
}

/** The request loop as it runs: vectors and tables drained and filled in place. */
module RequestsObject {
  import opened Wrappers
  import opened Requests
  import R = Requests

  class ReadinessBased {
    var requestsRead: seq<Request>
    var responsesToWrite: seq<Response>
    var states: map<Tag, Op>
    var readyQueue: seq<Tag>
    var log: seq<Tag>
    ghost var arrived: seq<Request>
    ghost var written: seq<Response>
    /** The answers the scheme will give, one for each call. */
    const oracle: Oracle

    ghost function Model(): (s: Loop)
      reads this
    {
      Loop(requestsRead, responsesToWrite, states, log, arrived, written)
    }

    constructor (oracle: Oracle)
      ensures Model() == EMPTY && this.oracle == oracle
    {
      requestsRead, responsesToWrite, states, readyQueue, log := [], [], map[], [], [];
      arrived, written := [], [];
      this.oracle := oracle;
    }

    method Ask(tag: Tag) returns (a: Answer)
      modifies this
      ensures a == oracle(|old(log)|) && Model() == old(Asked(Model(), tag)) && readyQueue == old(readyQueue)
    {
      a := oracle(|log|);
      log := log + [tag];
    }

    method Handle(tag: Tag, op: Op)
      modifies this
      ensures Model() == old(R.Handle(Model(), tag, op, oracle)) && readyQueue == old(readyQueue)
    {
      var a := Ask(tag);
      if WouldBlock(a) && !op.nonblock {
        states := states[tag := op];
      } else {
        responsesToWrite := responsesToWrite + [Respond(tag, a)];
      }
    }

    method ProcessOne(r: Request)
      modifies this
      ensures Model() == old(R.ProcessOne(Model(), r, oracle))
    {
      match r
      case Cancel(tag) =>
        if tag in states {
          states := states - {tag};
          responsesToWrite := responsesToWrite + [Response(tag, Err(ECANCELED))];
        }
      case OnClose(_) =>
      case OtherMessage =>
      case SendFd(tag) =>
        var a := Ask(tag);
        responsesToWrite := responsesToWrite + [Respond(tag, a)];
      case RecvFd(tag) => Handle(tag, RECV_OP);
      case Call(tag, None) => responsesToWrite := responsesToWrite + [Response(tag, Err(EOPNOTSUPP))];
      case Call(tag, Some(op)) => Handle(tag, op);
    }

    method ProcessRequests()
      modifies this
      ensures Model() == old(Process(Model(), oracle))
    {
      while requestsRead != []
        invariant Process(Model(), oracle) == old(Process(Model(), oracle))
        decreases |requestsRead|
      {
        ghost var s := Model();
        var r, rest := requestsRead[0], requestsRead[1..];
        requestsRead := rest;
        ProcessOne(r);
        requestsRead := rest;
        assert Model() == R.ProcessOne(s.(inbox := s.inbox[1..]), r, oracle).(inbox := rest);
      }
    }

    method PollRequestInner(tag: Tag) returns (r: Result<()>)
      modifies this
      ensures readyQueue == old(readyQueue)
      ensures match old(PollOne(Model(), tag, oracle))
              case Ok(s) => Model() == s && r.Ok?
              case Err(e) => Model() == old(Model()) && r == Err(e)
    {
      if tag !in states { return Err(EIO); }
      var op := states[tag];
      states := states - {tag};
      Handle(tag, op);
      return Ok(());
    }

    method PollReadyRequests() returns (r: Result<()>)
      modifies this
      ensures readyQueue == []
      ensures var (s, result) := old(PollQueue(Model(), readyQueue, oracle));
              Model() == s && r == result
    {
      while readyQueue != []
        invariant PollQueue(Model(), readyQueue, oracle) == old(PollQueue(Model(), readyQueue, oracle))
        decreases |readyQueue|
      {
        var tag := readyQueue[0];
        var polled := PollRequestInner(tag);
        if polled.Err? {
          readyQueue := [];
          return Err(polled.error);
        }
        readyQueue := readyQueue[1..];
      }
      return Ok(());
    }

    /** Every parked request, in an order the table chooses. */
    method PollAllRequests() returns (r: Result<()>, ghost order: seq<Tag>)
      modifies this
      ensures Enumerates(order, old(states.Keys))
      ensures var (s, result) := old(PollQueue(Model(), order, oracle));
              Model() == s && r == result
    {
      readyQueue := [];
      var rest := states.Keys;
      while rest != {}
        invariant rest <= states.Keys && Model() == old(Model())
        invariant forall i, j :: 0 <= i < j < |readyQueue| ==> readyQueue[i] != readyQueue[j]
        invariant forall t :: t in readyQueue <==> t in states.Keys && t !in rest
        decreases rest
      {
        var t :| t in rest;
        readyQueue, rest := readyQueue + [t], rest - {t};
      }
      order := readyQueue;
      r := PollReadyRequests();
    }

    /** The socket takes any prefix of the queue. */
    method WriteResponses(n: nat)
      requires n <= |responsesToWrite|
      modifies this
      ensures Model() == old(Write(Model(), n))
    {
      written := written + responsesToWrite[..n];
      responsesToWrite := responsesToWrite[n..];
    }
  }
}
