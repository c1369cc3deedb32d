/** The channel scheme: named listeners, queued connection attempts and linked clients, with
    every `unwrap`, `expect` and `panic!` of the source as an explicit panic outcome.
    Posting an event to the kernel succeeds. */
module Chan {
  import opened Wrappers

  type Id = nat
  type Byte = n: nat | n < 256

  datatype Flags = Flags(create: bool, excl: bool, nonblock: bool, others: nat)

  const NO_FLAGS := Flags(false, false, false, 0)

  datatype Connection = Waiting | Open(peer: Id) | Closed

  datatype Extra =
    | Client(buffer: seq<Byte>, remote: Connection)
    | Listener(name: Option<string>, awaiting: seq<Id>)

  datatype Handle = Handle(flags: Flags, extra: Extra, path: Option<string>)

  /** `sent` holds what each handle's successful writes carried, `received` what its reads
      returned, and `peer` whom it was linked to. No operation reads the history. */
  datatype State = State(
    handles: map<Id, Handle>,
    listeners: map<string, Id>,
    nextId: Id,
    sent: map<Id, seq<Byte>>,
    received: map<Id, seq<Byte>>,
    peer: map<Id, Id>
  )

  datatype Events = Events(read: bool, write: bool)

  datatype Post = Post(id: Id, events: Events)

  datatype Answer = NewHandle(id: Id) | WouldBlock | Count(n: nat) | Data(bytes: seq<Byte>) | OldFlags(flags: Flags)

  datatype Step = Panicked | Stepped(s: State, answer: Result<Answer>, posts: seq<Post>)

  datatype DupArg = Listen | Connect | Named(path: string) | NotUtf8

  const EMPTY := State(map[], map[], 0, map[], map[], map[])

  function Fail(s: State, e: Errno): (r: Step)
  {
    Stepped(s, Err(e), [])
  }

  function History(h: map<Id, seq<Byte>>, id: Id): (r: seq<Byte>)
  {
    if id in h then h[id] else []
  }

  function SetHandle(s: State, id: Id, h: Handle): (r: State)
  {
    s.(handles := s.handles[id := h])
  }

  /** A new handle under the next id. */
  function Insert(s: State, h: Handle): (r: State)
  {
    s.(handles := s.handles[s.nextId := h], nextId := s.nextId + 1)
  }

  /** Queues a new client with listener `l`. */
  function Enqueue(s: State, l: Id, flags: Flags): (r: State)
    requires l in s.handles && s.handles[l].extra.Listener?
  {
    var h := s.handles[l];
    Insert(SetHandle(s, l, h.(extra := h.extra.(awaiting := h.extra.awaiting + [s.nextId]))),
           Handle(flags, Client([], Waiting), None))
  }

  function Attach(s: State, l: Id, flags: Flags): (r: Step)
    requires l in s.handles
  {
    if !s.handles[l].extra.Listener? then Fail(s, EBADF)
    else Stepped(Enqueue(s, l, flags), Ok(NewHandle(s.nextId)), [Post(l, Events(true, true))])
  }

  function OpenPath(s: State, path: string, flags: Flags): (r: Step)
  {
    if flags.create && path !in s.listeners then
      var name := if path == "" then None else Some(path);
      var s1 := if path == "" then s else s.(listeners := s.listeners[path := s.nextId]);
      Stepped(Insert(s1, Handle(flags, Listener(name, []), None)), Ok(NewHandle(s.nextId)), [])
    else if flags.create && flags.excl then Fail(s, EEXIST)
    else if path !in s.listeners then Fail(s, ENOENT)
    else if s.listeners[path] !in s.handles then Panicked
    else Attach(s, s.listeners[path], flags)
  }

  /** The queue without the clients that closed before being accepted. */
  function SkipDead(handles: map<Id, Handle>, queue: seq<Id>): (r: seq<Id>)
    ensures r != [] ==> r[0] in handles
  {
    if queue == [] || queue[0] in handles then queue else SkipDead(handles, queue[1..])
  }

  /** Links the queued client `c` with a new handle accepted from listener `l`. */
  function Link(s: State, l: Id, c: Id, rest: seq<Id>): (r: State)
    requires l in s.handles && s.handles[l].extra.Listener?
    requires c in s.handles && s.handles[c].extra.Client?
  {
    var h, remote, n := s.handles[l], s.handles[c], s.nextId;
    var s1 := SetHandle(s, l, h.(extra := h.extra.(awaiting := rest)));
    var s2 := SetHandle(s1, c, remote.(extra := remote.extra.(remote := Open(n))));
    Insert(s2, Handle(h.flags, Client([], Open(c)), h.extra.name)).(peer := s.peer[c := n][n := c])
  }

  function Accept(s: State, id: Id): (r: Step)
  {
    if id !in s.handles || !s.handles[id].extra.Listener? then Fail(s, EBADF) else
    var h := s.handles[id];
    var queue := SkipDead(s.handles, h.extra.awaiting);
    if queue == [] then
      Stepped(SetHandle(s, id, h.(extra := h.extra.(awaiting := []))),
              if h.flags.nonblock then Ok(WouldBlock) else Err(EWOULDBLOCK), [])
    else if s.handles[queue[0]].extra.Listener? then Panicked
    else Stepped(Link(s, id, queue[0], queue[1..]), Ok(NewHandle(s.nextId)), [Post(queue[0], Events(false, true))])
  }

  function Dup(s: State, id: Id, arg: DupArg): (r: Step)
  {
    match arg
    case Listen => Accept(s, id)
    case Connect => if id !in s.handles then Fail(s, EBADF) else Attach(s, id, NO_FLAGS)
    case NotUtf8 => Fail(s, EBADF)
    case Named(path) =>
      if path == "" || id !in s.handles || s.handles[id].path.Some? then Fail(s, EBADF)
      else OpenPath(s, path, s.handles[id].flags)
  }

  function Put(s: State, from: Id, to: Id, bytes: seq<Byte>): (r: State)
    requires to in s.handles && s.handles[to].extra.Client?
  {
    var h := s.handles[to];
    SetHandle(s, to, h.(extra := h.extra.(buffer := h.extra.buffer + bytes)))
      .(sent := s.sent[from := History(s.sent, from) + bytes])
  }

  function Write(s: State, id: Id, bytes: seq<Byte>, nonblock: bool): (r: Step)
  {
    if id !in s.handles || !s.handles[id].extra.Client? then Fail(s, EBADF) else
    match s.handles[id].extra.remote
    case Closed => Fail(s, EPIPE)
    case Waiting => Fail(s, if nonblock then EAGAIN else EWOULDBLOCK)
    case Open(to) =>
      if to !in s.handles || !s.handles[to].extra.Client? then Panicked else
      var s1 := Put(s, id, to, bytes);
      Stepped(s1, Ok(Count(|bytes|)),
              if |s1.handles[to].extra.buffer| == |bytes| then [Post(to, Events(true, false))] else [])
  }

  function Take(s: State, id: Id, len: nat): (r: State)
    requires id in s.handles && s.handles[id].extra.Client? && len <= |s.handles[id].extra.buffer|
  {
    var h := s.handles[id];
    SetHandle(s, id, h.(extra := h.extra.(buffer := h.extra.buffer[len..])))
      .(received := s.received[id := History(s.received, id) + h.extra.buffer[..len]])
  }

  function Read(s: State, id: Id, size: nat, nonblock: bool): (r: Step)
  {
    if id !in s.handles || !s.handles[id].extra.Client? then Fail(s, EBADF) else
    var buffer := s.handles[id].extra.buffer;
    if buffer != [] then
      var len := if size < |buffer| then size else |buffer|;
      Stepped(Take(s, id, len), Ok(Data(buffer[..len])), [])
    else if s.handles[id].extra.remote.Closed? then Stepped(s, Ok(Data([])), [])
    else Fail(s, if nonblock then EAGAIN else EWOULDBLOCK)
  }

  function Close(s: State, id: Id): (r: Step)
  {
    if id !in s.handles then Panicked else
    var h, s1 := s.handles[id], s.(handles := s.handles - {id});
    match h.extra
    case Listener(name, _) =>
      Stepped(if name.Some? then s1.(listeners := s.listeners - {name.value}) else s1, Ok(Count(0)), [])
    case Client(_, remote) =>
      if !remote.Open? then Stepped(s1, Ok(Count(0)), []) else
      if remote.peer !in s1.handles || !s1.handles[remote.peer].extra.Client? then Panicked else
      var other := s1.handles[remote.peer];
      Stepped(SetHandle(s1, remote.peer, other.(extra := other.extra.(remote := Closed))), Ok(Count(0)),
              if other.extra.buffer == [] then [Post(remote.peer, Events(true, false))] else [])
  }

  datatype Fcntl = GetFlags | SetFlags(flags: Flags) | Other

  function Control(s: State, id: Id, cmd: Fcntl): (r: Step)
  {
    if id !in s.handles then Fail(s, EBADF) else
    match cmd
    case GetFlags => Stepped(s, Ok(OldFlags(s.handles[id].flags)), [])
    case SetFlags(flags) => Stepped(SetHandle(s, id, s.handles[id].(flags := flags)), Ok(Count(0)), [])
    case Other => Fail(s, EINVAL)
  }

  function EventsOf(extra: Extra): (r: Events)
  {
    match extra
    case Client(buffer, remote) => Events(buffer != [] || remote.Closed?, remote.Open?)
    case Listener(_, awaiting) => Events(awaiting != [], awaiting != [])
  }

  function Fevent(s: State, id: Id): (r: Result<Events>)
  {
    if id !in s.handles then Err(EBADF) else Ok(EventsOf(s.handles[id].extra))
  }

  datatype Action =
    | DoOpen(path: string, flags: Flags)
    | DoDup(id: Id, arg: DupArg)
    | DoWrite(id: Id, bytes: seq<Byte>, nonblock: bool)
    | DoRead(id: Id, size: nat, nonblock: bool)
    | DoClose(id: Id)
    | DoControl(id: Id, cmd: Fcntl)

  /** The kernel closes each live id once; everything else may be asked of any id. */
  predicate Enabled(s: State, a: Action)
  {
    a.DoClose? ==> a.id in s.handles
  }

  function Next(s: State, a: Action): (r: Step)
  {
    match a
    case DoOpen(path, flags) => OpenPath(s, path, flags)
    case DoDup(id, arg) => Dup(s, id, arg)
    case DoWrite(id, bytes, nonblock) => Write(s, id, bytes, nonblock)
    case DoRead(id, size, nonblock) => Read(s, id, size, nonblock)
    case DoClose(id) => Close(s, id)
    case DoControl(id, cmd) => Control(s, id, cmd)
  }

  datatype Trace = At(s: State) | Aborted | Illegal

  function Run(actions: seq<Action>): (r: Trace)
  {
    if actions == [] then At(EMPTY) else
    var last := |actions| - 1;
    var before := Run(actions[..last]);
    if !before.At? then before else
    if !Enabled(before.s, actions[last]) then Illegal else
    match Next(before.s, actions[last])
    case Panicked => Aborted
    case Stepped(s, _, _) => At(s)
  }
}

/** What every run of the channel scheme keeps, and what follows from it. */
module ChanTheorems {
  import opened Wrappers
  import opened Chan

  ghost predicate IsClient(s: State, id: Id)
  {
    id in s.handles && s.handles[id].extra.Client?
  }

  ghost predicate IsListener(s: State, id: Id)
  {
    id in s.handles && s.handles[id].extra.Listener?
  }

  /** Links are mutual, between distinct live clients. */
  ghost predicate Linked(s: State)
  {
    forall a :: IsClient(s, a) && s.handles[a].extra.remote.Open? ==>
      var b := s.handles[a].extra.remote.peer;
      b != a && IsClient(s, b) && s.handles[b].extra.remote == Open(a)
  }

  ghost function Queue(s: State, l: Id): (q: seq<Id>)
  {
    if IsListener(s, l) then s.handles[l].extra.awaiting else []
  }

  ghost predicate Queued(s: State, l: Id, c: Id)
  {
    c in Queue(s, l)
  }

  ghost predicate WaitsFor(s: State, c: Id)
  {
    IsClient(s, c) && s.handles[c].extra.remote.Waiting?
  }

  ghost predicate NoRepeats(q: seq<Id>)
  {
    forall i, j :: 0 <= i < j < |q| ==> q[i] != q[j]
  }

  /** A queued id that is still alive is a client nobody accepted, and an id is queued at
      most once, in one queue. */
  ghost predicate Queues(s: State)
  {
    && (forall l: Id, c: Id :: Queued(s, l, c) ==> c < s.nextId && (c in s.handles ==> WaitsFor(s, c)))
    && (forall l :: NoRepeats(Queue(s, l)))
    && (forall l: Id, k: Id, c: Id :: Queued(s, l, c) && Queued(s, k, c) ==> l == k)
  }

  /** The name table lists exactly the live named listeners. */
  ghost predicate NamesMatch(s: State)
  {
    && "" !in s.listeners
    && (forall path :: path in s.listeners ==>
          IsListener(s, s.listeners[path]) && s.handles[s.listeners[path]].extra.name == Some(path))
    && (forall l :: IsListener(s, l) && s.handles[l].extra.name.Some? ==>
          s.handles[l].extra.name.value in s.listeners && s.listeners[s.handles[l].extra.name.value] == l)
  }

  /** Nothing is known of ids not handed out yet. */
  ghost predicate Fresh(s: State)
  {
    && (forall id :: id in s.handles || id in s.sent || id in s.received || id in s.peer ==> id < s.nextId)
    && (forall id :: id in s.peer ==> s.peer[id] < s.nextId)
  }

  /** What came from the peer is what was read followed by the buffer. */
  ghost predicate StreamOf(s: State, a: Id)
    requires IsClient(s, a)
  {
    var c := s.handles[a].extra;
    match c.remote
    case Waiting => c.buffer == [] && a !in s.peer && a !in s.sent && a !in s.received
    case Open(b) => a in s.peer && s.peer[a] == b && History(s.sent, b) == History(s.received, a) + c.buffer
    case Closed => a in s.peer && s.peer[a] !in s.handles
                   && History(s.sent, s.peer[a]) == History(s.received, a) + c.buffer
  }

  ghost predicate Streams(s: State)
  {
    forall a :: IsClient(s, a) ==> StreamOf(s, a)
  }

  ghost predicate Structure(s: State)
  {
    Linked(s) && NamesMatch(s) && Fresh(s)
  }

  ghost predicate Inv(s: State)
  {
    Structure(s) && Queues(s) && Streams(s)
  }

  // ---------------------------------------------------------------- frames

  lemma QueuesShrink(s: State, s': State)
    requires Queues(s) && s.nextId <= s'.nextId
    requires forall l :: NoRepeats(Queue(s', l))
    requires forall l, c :: Queued(s', l, c) ==> Queued(s, l, c) && (c in s'.handles ==> WaitsFor(s', c))
    ensures Queues(s')
  {
  }

  /** No queue changed, and no waiting client stopped waiting. */
  lemma SameQueues(s: State, s': State)
    requires Queues(s) && s.nextId <= s'.nextId
    requires forall l :: Queue(s', l) == Queue(s, l) || Queue(s', l) == []
    requires forall c :: c in s'.handles && c < s.nextId ==> c in s.handles && (WaitsFor(s, c) ==> WaitsFor(s', c))
    ensures Queues(s')
  {
    forall l, c | Queued(s', l, c) ensures Queued(s, l, c) && (c in s'.handles ==> WaitsFor(s', c)) {
      assert Queued(s, l, c);
    }
    forall l ensures NoRepeats(Queue(s', l)) {
      assert NoRepeats(Queue(s, l));
    }
    QueuesShrink(s, s');
  }

  /** Client `a` and its peer's history are as before. */
  ghost predicate SameStream(s: State, s': State, a: Id)
    requires IsClient(s', a)
  {
    && IsClient(s, a) && s'.handles[a].extra == s.handles[a].extra
    && History(s'.received, a) == History(s.received, a) && (a in s'.received ==> a in s.received)
    && (s.handles[a].extra.remote.Waiting? ==> (a in s'.sent ==> a in s.sent))
    && (a in s'.peer <==> a in s.peer)
    && (a in s.peer ==>
          && s'.peer[a] == s.peer[a] && History(s'.sent, s.peer[a]) == History(s.sent, s.peer[a])
          && (s.peer[a] !in s.handles ==> s.peer[a] !in s'.handles))
  }

  lemma StreamsKeep(s: State, s': State)
    requires Streams(s)
    requires forall a :: IsClient(s', a) ==> SameStream(s, s', a) || StreamOf(s', a)
    ensures Streams(s')
  {
    forall a | IsClient(s', a) ensures StreamOf(s', a) {
      if SameStream(s, s', a) { assert StreamOf(s, a); }
    }
  }

  /** Changing flags, or emptying a queue. */
  ghost predicate Retouches(h: Handle, h': Handle)
  {
    h'.extra == h.extra || (h.extra.Listener? && h'.extra == h.extra.(awaiting := []))
  }

  lemma RetouchKeepsStructure(s: State, id: Id, h: Handle)
    requires Structure(s) && id in s.handles && Retouches(s.handles[id], h)
    ensures Structure(SetHandle(s, id, h))
  {
    var s' := SetHandle(s, id, h);
    assert forall x :: IsClient(s', x) <==> IsClient(s, x);
    assert forall x :: IsListener(s', x) <==> IsListener(s, x);
  }

  lemma RetouchKeeps(s: State, id: Id, h: Handle)
    requires Inv(s) && id in s.handles && Retouches(s.handles[id], h)
    ensures Inv(SetHandle(s, id, h))
  {
    var s' := SetHandle(s, id, h);
    RetouchKeepsStructure(s, id, h);
    SameQueues(s, s');
    assert forall a :: IsClient(s', a) ==> SameStream(s, s', a);
    StreamsKeep(s, s');
  }

  // ---------------------------------------------------------------- a new client or listener

  lemma EnqueueKeepsQueues(s: State, l: Id, flags: Flags)
    requires Fresh(s) && Queues(s) && IsListener(s, l)
    ensures Queues(Enqueue(s, l, flags))
  {
    var s', n := Enqueue(s, l, flags), s.nextId;
    forall k, c | Queued(s', k, c) ensures (k == l && c == n) || Queued(s, k, c) {
    }
    forall k ensures NoRepeats(Queue(s', k)) {
      assert NoRepeats(Queue(s, k));
      assert Queue(s', k) == if k == l then Queue(s, l) + [n] else Queue(s, k);
      forall i | 0 <= i < |Queue(s, l)| ensures Queue(s, l)[i] != n { assert Queued(s, l, Queue(s, l)[i]); }
    }
    assert forall c :: WaitsFor(s, c) ==> WaitsFor(s', c);
    assert forall k :: !Queued(s, k, n);
  }

  lemma EnqueueKeeps(s: State, l: Id, flags: Flags)
    requires Structure(s) && Streams(s) && IsListener(s, l)
    ensures Structure(Enqueue(s, l, flags)) && Streams(Enqueue(s, l, flags))
  {
    var s' := Enqueue(s, l, flags);
    assert forall a :: IsClient(s', a) && a != s.nextId ==> SameStream(s, s', a);
    assert StreamOf(s', s.nextId);
    StreamsKeep(s, s');
  }

  lemma NewListenerKeeps(s: State, path: string, flags: Flags)
    requires Linked(s) && Fresh(s) && path !in s.listeners && flags.create
    ensures Linked(OpenPath(s, path, flags).s) && Fresh(OpenPath(s, path, flags).s)
  {
  }

  lemma NewListenerKeepsNames(s: State, path: string, flags: Flags)
    requires NamesMatch(s) && Fresh(s) && path !in s.listeners && flags.create
    ensures NamesMatch(OpenPath(s, path, flags).s)
  {
  }

  lemma NewListenerKeepsRest(s: State, path: string, flags: Flags)
    requires Fresh(s) && Queues(s) && Streams(s) && path !in s.listeners && flags.create
    ensures Queues(OpenPath(s, path, flags).s) && Streams(OpenPath(s, path, flags).s)
  {
    var s' := OpenPath(s, path, flags).s;
    SameQueues(s, s');
    assert forall a :: IsClient(s', a) ==> SameStream(s, s', a);
    StreamsKeep(s, s');
  }

  // ---------------------------------------------------------------- accepting

  /** Exactly the dead clients at the front are skipped. */
  lemma {:induction false} SkipsExactlyTheDead(handles: map<Id, Handle>, queue: seq<Id>)
    ensures var live := SkipDead(handles, queue);
            && |live| <= |queue| && live == queue[|queue| - |live|..]
            && forall i :: 0 <= i < |queue| - |live| ==> queue[i] !in handles
    decreases |queue|
  {
    if queue != [] && queue[0] !in handles {
      SkipsExactlyTheDead(handles, queue[1..]);
      OneMoreDead(handles, queue, SkipDead(handles, queue[1..]));
    }
  }

  lemma OneMoreDead(handles: map<Id, Handle>, queue: seq<Id>, live: seq<Id>)
    requires queue != [] && queue[0] !in handles && |live| < |queue|
    requires live == queue[1..][|queue| - 1 - |live|..]
    requires forall i :: 0 <= i < |queue| - 1 - |live| ==> queue[1..][i] !in handles
    ensures live == queue[|queue| - |live|..] && forall i :: 0 <= i < |queue| - |live| ==> queue[i] !in handles
  {
    forall i | 0 <= i < |queue| - |live| ensures queue[i] !in handles {
      if i > 0 { assert queue[i] == queue[1..][i - 1]; }
    }
  }

  lemma SuffixNoRepeats(q: seq<Id>, k: nat)
    requires NoRepeats(q) && k < |q|
    ensures NoRepeats(q[k + 1..]) && q[k] !in q[k + 1..]
  {
  }

  lemma LinkKeepsQueues(s: State, l: Id, k: nat)
    requires Fresh(s) && Queues(s) && IsListener(s, l) && k < |Queue(s, l)| && IsClient(s, Queue(s, l)[k])
    ensures Queues(Link(s, l, Queue(s, l)[k], Queue(s, l)[k + 1..]))
  {
    var q := Queue(s, l);
    var c, rest := q[k], q[k + 1..];
    var s' := Link(s, l, c, rest);
    assert NoRepeats(q);
    SuffixNoRepeats(q, k);
    assert Queued(s, l, c);
    forall x, y | Queued(s', x, y) ensures Queued(s, x, y) && y != c && (y in s'.handles ==> WaitsFor(s', y)) {
      assert Queue(s', x) == if x == l then rest else Queue(s, x);
      assert Queued(s, x, y);
    }
    forall x ensures NoRepeats(Queue(s', x)) {
      assert NoRepeats(Queue(s, x));
    }
    QueuesShrink(s, s');
  }

  lemma LinkKeepsLinks(s: State, l: Id, c: Id, rest: seq<Id>)
    requires Linked(s) && Fresh(s) && IsListener(s, l) && WaitsFor(s, c)
    ensures Linked(Link(s, l, c, rest)) && Fresh(Link(s, l, c, rest))
  {
  }

  lemma LinkKeepsNames(s: State, l: Id, c: Id, rest: seq<Id>)
    requires NamesMatch(s) && Fresh(s) && IsListener(s, l) && WaitsFor(s, c)
    ensures NamesMatch(Link(s, l, c, rest))
  {
  }

  lemma LinkKeeps(s: State, l: Id, c: Id, rest: seq<Id>)
    requires Structure(s) && IsListener(s, l) && WaitsFor(s, c)
    ensures Structure(Link(s, l, c, rest))
  {
    LinkKeepsLinks(s, l, c, rest);
    LinkKeepsNames(s, l, c, rest);
  }

  lemma LinkKeepsStreams(s: State, l: Id, c: Id, rest: seq<Id>)
    requires Fresh(s) && Streams(s) && IsListener(s, l) && WaitsFor(s, c)
    ensures Streams(Link(s, l, c, rest))
  {
    var s' := Link(s, l, c, rest);
    assert StreamOf(s, c);
    assert forall a :: IsClient(s', a) && a != s.nextId && a != c ==> SameStream(s, s', a);
    assert StreamOf(s', s.nextId) && StreamOf(s', c);
    StreamsKeep(s, s');
  }

  // ---------------------------------------------------------------- data

  lemma PutKeeps(s: State, from: Id, to: Id, bytes: seq<Byte>)
    requires Structure(s) && Queues(s) && IsClient(s, from) && s.handles[from].extra.remote == Open(to)
    ensures Structure(Put(s, from, to, bytes)) && Queues(Put(s, from, to, bytes))
  {
    SameQueues(s, Put(s, from, to, bytes));
  }

  lemma PutKeepsStreams(s: State, from: Id, to: Id, bytes: seq<Byte>)
    requires Linked(s) && Streams(s) && IsClient(s, from) && s.handles[from].extra.remote == Open(to)
    ensures Streams(Put(s, from, to, bytes))
  {
    var s' := Put(s, from, to, bytes);
    assert StreamOf(s, to) && StreamOf(s, from);
    forall a | IsClient(s', a) && a != to ensures SameStream(s, s', a) {
      assert StreamOf(s, a);
    }
    assert StreamOf(s', to);
    StreamsKeep(s, s');
  }

  lemma TakeKeeps(s: State, id: Id, len: nat)
    requires Structure(s) && Queues(s) && IsClient(s, id) && len <= |s.handles[id].extra.buffer|
    ensures Structure(Take(s, id, len)) && Queues(Take(s, id, len))
  {
    SameQueues(s, Take(s, id, len));
  }

  lemma TakeKeepsStreams(s: State, id: Id, len: nat)
    requires Streams(s) && IsClient(s, id) && s.handles[id].extra.buffer != [] && len <= |s.handles[id].extra.buffer|
    ensures Streams(Take(s, id, len))
  {
    var s' := Take(s, id, len);
    assert StreamOf(s, id);
    assert forall a :: IsClient(s', a) && a != id ==> SameStream(s, s', a);
    assert StreamOf(s', id) by {
      var buffer := s.handles[id].extra.buffer;
      assert History(s.received, id) + buffer == History(s.received, id) + buffer[..len] + buffer[len..];
    }
    StreamsKeep(s, s');
  }

  // ---------------------------------------------------------------- closing

  lemma CloseKeepsLinks(s: State, id: Id)
    requires Linked(s) && id in s.handles
    ensures Close(s, id).Stepped? && Linked(Close(s, id).s)
  {
    var s' := Close(s, id).s;
    forall a | IsClient(s', a) && s'.handles[a].extra.remote.Open?
      ensures var b := s'.handles[a].extra.remote.peer;
              b != a && IsClient(s', b) && s'.handles[b].extra.remote == Open(a)
    {
      assert IsClient(s, a) && s'.handles[a] == s.handles[a];
    }
  }

  lemma CloseKeepsFresh(s: State, id: Id)
    requires Fresh(s) && Close(s, id).Stepped?
    ensures Fresh(Close(s, id).s)
  {
    assert Close(s, id).s.handles.Keys <= s.handles.Keys;
  }

  lemma SameListeners(s: State, s': State)
    requires NamesMatch(s) && s'.listeners == s.listeners
    requires forall l :: IsListener(s, l) ==> IsListener(s', l) && s'.handles[l] == s.handles[l]
    requires forall l :: IsListener(s', l) ==> IsListener(s, l)
    ensures NamesMatch(s')
  {
  }

  lemma CloseListenerKeepsNames(s: State, id: Id)
    requires NamesMatch(s) && IsListener(s, id)
    ensures NamesMatch(Close(s, id).s)
  {
  }

  lemma CloseKeepsNames(s: State, id: Id)
    requires Linked(s) && NamesMatch(s) && id in s.handles
    ensures Close(s, id).Stepped? && NamesMatch(Close(s, id).s)
  {
    if IsListener(s, id) { CloseListenerKeepsNames(s, id); } else { SameListeners(s, Close(s, id).s); }
  }

  lemma CloseKeepsQueues(s: State, id: Id)
    requires Structure(s) && Queues(s) && id in s.handles
    ensures Queues(Close(s, id).s)
  {
    SameQueues(s, Close(s, id).s);
  }

  lemma CloseRecordsNothing(s: State, id: Id)
    requires Close(s, id).Stepped?
    ensures var s' := Close(s, id).s;
            && s'.sent == s.sent && s'.received == s.received && s'.peer == s.peer
            && s'.handles.Keys == s.handles.Keys - {id}
  {
  }

  /** A client that was linked to `id` sees it closed. */
  ghost predicate ClosedFor(s: State, s': State, id: Id, a: Id)
    requires IsClient(s', a)
  {
    && IsClient(s, a) && a != id
    && s'.handles[a].extra == if s.handles[a].extra.remote == Open(id) then s.handles[a].extra.(remote := Closed)
                              else s.handles[a].extra
  }

  lemma CloseSeen(s: State, id: Id, a: Id)
    requires Linked(s) && id in s.handles && Close(s, id).Stepped? && IsClient(Close(s, id).s, a)
    ensures ClosedFor(s, Close(s, id).s, id, a)
  {
    assert IsClient(s, a);
  }

  lemma ClosedKeepsStream(s: State, s': State, id: Id, a: Id)
    requires s'.sent == s.sent && s'.received == s.received && s'.peer == s.peer
    requires s'.handles.Keys == s.handles.Keys - {id}
    requires IsClient(s', a) && ClosedFor(s, s', id, a) && StreamOf(s, a)
    ensures SameStream(s, s', a) || StreamOf(s', a)
  {
  }

  lemma CloseKeepsStreams(s: State, id: Id)
    requires Structure(s) && Streams(s) && id in s.handles
    ensures Streams(Close(s, id).s)
  {
    CloseKeepsLinks(s, id);
    CloseRecordsNothing(s, id);
    var s' := Close(s, id).s;
    forall a | IsClient(s', a) ensures SameStream(s, s', a) || StreamOf(s', a) {
      CloseSeen(s, id, a);
      assert StreamOf(s, a);
      ClosedKeepsStream(s, s', id, a);
    }
    StreamsKeep(s, s');
  }

  // ---------------------------------------------------------------- steps and runs

  lemma AttachKeeps(s: State, l: Id, flags: Flags)
    requires Inv(s) && l in s.handles
    ensures Attach(s, l, flags).Stepped? && Inv(Attach(s, l, flags).s)
  {
    if IsListener(s, l) {
      EnqueueKeeps(s, l, flags);
      EnqueueKeepsQueues(s, l, flags);
    }
  }

  lemma OpenKeeps(s: State, path: string, flags: Flags)
    requires Inv(s)
    ensures OpenPath(s, path, flags).Stepped? && Inv(OpenPath(s, path, flags).s)
  {
    if flags.create && path !in s.listeners {
      NewListenerKeeps(s, path, flags);
      NewListenerKeepsNames(s, path, flags);
      NewListenerKeepsRest(s, path, flags);
    } else if path in s.listeners {
      AttachKeeps(s, s.listeners[path], flags);
    }
  }

  lemma AcceptKeeps(s: State, id: Id)
    requires Inv(s)
    ensures Accept(s, id).Stepped? && Inv(Accept(s, id).s)
  {
    if IsListener(s, id) {
      var q := Queue(s, id);
      var live := SkipDead(s.handles, q);
      if live != [] {
        SkipsExactlyTheDead(s.handles, q);
        var k := |q| - |live|;
        assert Queued(s, id, q[k]) && live[0] == q[k] && live[1..] == q[k + 1..];
        LinkKeeps(s, id, q[k], q[k + 1..]);
        LinkKeepsQueues(s, id, k);
        LinkKeepsStreams(s, id, q[k], q[k + 1..]);
      } else {
        RetouchKeeps(s, id, s.handles[id].(extra := s.handles[id].extra.(awaiting := [])));
      }
    }
  }

  lemma ControlKeeps(s: State, id: Id, cmd: Fcntl)
    requires Inv(s)
    ensures Control(s, id, cmd).Stepped? && Inv(Control(s, id, cmd).s)
  {
    if id in s.handles && cmd.SetFlags? { RetouchKeeps(s, id, s.handles[id].(flags := cmd.flags)); }
  }

  /** No step panics, and every step keeps the invariant. */
  lemma StepKeeps(s: State, a: Action)
    requires Inv(s) && Enabled(s, a)
    ensures Next(s, a).Stepped? && Inv(Next(s, a).s)
  {
    match a {
      case DoOpen(path, flags) => OpenKeeps(s, path, flags);
      case DoDup(id, arg) =>
        match arg {
          case Listen => AcceptKeeps(s, id);
          case Connect => if id in s.handles { AttachKeeps(s, id, NO_FLAGS); }
          case Named(path) => if id in s.handles { OpenKeeps(s, path, s.handles[id].flags); }
          case NotUtf8 =>
        }
      case DoWrite(id, bytes, _) =>
        if IsClient(s, id) && s.handles[id].extra.remote.Open? {
          PutKeeps(s, id, s.handles[id].extra.remote.peer, bytes);
          PutKeepsStreams(s, id, s.handles[id].extra.remote.peer, bytes);
        }
      case DoRead(id, size, _) =>
        if IsClient(s, id) && s.handles[id].extra.buffer != [] {
          var len := if size < |s.handles[id].extra.buffer| then size else |s.handles[id].extra.buffer|;
          TakeKeeps(s, id, len);
          TakeKeepsStreams(s, id, len);
        }
      case DoClose(id) =>
        CloseKeepsLinks(s, id);
        CloseKeepsFresh(s, id);
        CloseKeepsNames(s, id);
        CloseKeepsQueues(s, id);
        CloseKeepsStreams(s, id);
      case DoControl(id, cmd) => ControlKeeps(s, id, cmd);
    }
  }

  /** No run reaches an `unwrap` of nothing, an `expect` or a `panic!`. */
  lemma {:induction false} NoRunPanics(actions: seq<Action>)
    ensures Run(actions) != Aborted
    ensures Run(actions).At? ==> Inv(Run(actions).s)
    decreases |actions|
  {
    if actions != [] {
      var last := |actions| - 1;
      NoRunPanics(actions[..last]);
      var before := Run(actions[..last]);
      if before.At? && Enabled(before.s, actions[last]) {
        StepKeeps(before.s, actions[last]);
      }
    }
  }

  /** In every run a client is linked to `b` exactly when `b` is a live, distinct client linked
      back to it, and a live id in a queue is an unlinked client that is in no other queue. */
  lemma LinksAreMutual(actions: seq<Action>, a: Id, b: Id)
    requires Run(actions).At? && IsClient(Run(actions).s, a)
    ensures var s := Run(actions).s;
            && (s.handles[a].extra.remote == Open(b) <==>
                a != b && IsClient(s, b) && s.handles[b].extra.remote == Open(a))
            && (forall l, k :: Queued(s, l, a) ==> s.handles[a].extra.remote.Waiting? && (Queued(s, k, a) ==> k == l))
  {
    NoRunPanics(actions);
  }

  lemma AcceptIsLink(s: State, l: Id, k: nat)
    requires Inv(s) && k < |Queue(s, l)| && Queue(s, l)[k] in s.handles
    requires forall i :: 0 <= i < k ==> Queue(s, l)[i] !in s.handles
    ensures IsListener(s, l) && WaitsFor(s, Queue(s, l)[k])
    ensures Accept(s, l).Stepped? && Accept(s, l).answer == Ok(NewHandle(s.nextId))
    ensures Accept(s, l).s == Link(s, l, Queue(s, l)[k], Queue(s, l)[k + 1..])
  {
    var q := Queue(s, l);
    assert Queued(s, l, q[k]);
    SkipsTo(s.handles, q, k);
    assert q[k..][1..] == q[k + 1..];
  }

  lemma LinkLinks(s: State, l: Id, c: Id, rest: seq<Id>)
    requires Fresh(s) && IsListener(s, l) && WaitsFor(s, c)
    ensures var s', n := Link(s, l, c, rest), s.nextId;
            && n !in s.handles
            && IsClient(s', c) && s'.handles[c].extra.remote == Open(n)
            && IsClient(s', n) && s'.handles[n].extra.remote == Open(c)
            && Queue(s', l) == rest
            && forall id :: id in s.handles && id != l && id != c ==>
                 id in s'.handles && s'.handles[id] == s.handles[id]
  {
  }

  /** In every run: accepting from a listener links the first client of its queue that is still
      alive with the new handle, and the clients behind it keep their places. */
  lemma AcceptLinksFirstLive(actions: seq<Action>, l: Id, k: nat)
    requires Run(actions).At? && k < |Queue(Run(actions).s, l)| && Queue(Run(actions).s, l)[k] in Run(actions).s.handles
    requires forall i :: 0 <= i < k ==> Queue(Run(actions).s, l)[i] !in Run(actions).s.handles
    ensures var s := Run(actions).s;
            var step, c, n := Accept(s, l), Queue(s, l)[k], s.nextId;
            && step.Stepped? && step.answer == Ok(NewHandle(n)) && n !in s.handles
            && IsClient(step.s, c) && step.s.handles[c].extra.remote == Open(n)
            && IsClient(step.s, n) && step.s.handles[n].extra.remote == Open(c)
            && Queue(step.s, l) == Queue(s, l)[k + 1..]
            && forall id :: id in s.handles && id != l && id != c ==>
                 id in step.s.handles && step.s.handles[id] == s.handles[id]
  {
    NoRunPanics(actions);
    var s := Run(actions).s;
    AcceptIsLink(s, l, k);
    LinkLinks(s, l, Queue(s, l)[k], Queue(s, l)[k + 1..]);
  }

  lemma {:induction false} SkipsTo(handles: map<Id, Handle>, queue: seq<Id>, k: nat)
    requires k < |queue| && queue[k] in handles && forall i :: 0 <= i < k ==> queue[i] !in handles
    ensures SkipDead(handles, queue) == queue[k..]
    decreases |queue|
  {
    if k > 0 {
      assert queue[0] !in handles;
      SkipsTo(handles, queue[1..], k - 1);
    }
  }

  /** The bytes one step takes from the writer `id`, judged by its answer. */
  ghost function Accepted(a: Action, step: Step, id: Id): (r: seq<Byte>)
  {
    if a.DoWrite? && a.id == id && step.Stepped? && step.answer == Ok(Count(|a.bytes|)) then a.bytes else []
  }

  /** The bytes one step hands to the reader `id`. */
  ghost function Returned(a: Action, step: Step, id: Id): (r: seq<Byte>)
  {
    if a.DoRead? && a.id == id && step.Stepped? && step.answer.Ok? && step.answer.value.Data?
    then step.answer.value.bytes
    else []
  }

  /** Everything the writer `id` was told was written in a run. */
  ghost function WrittenBy(actions: seq<Action>, id: Id): (r: seq<Byte>)
    requires Run(actions).At?
  {
    if actions == [] then [] else
    var last := |actions| - 1;
    WrittenBy(actions[..last], id) + Accepted(actions[last], Next(Run(actions[..last]).s, actions[last]), id)
  }

  /** Everything the reader `id` was given in a run. */
  ghost function ReadBy(actions: seq<Action>, id: Id): (r: seq<Byte>)
    requires Run(actions).At?
  {
    if actions == [] then [] else
    var last := |actions| - 1;
    ReadBy(actions[..last], id) + Returned(actions[last], Next(Run(actions[..last]).s, actions[last]), id)
  }

  ghost predicate NothingRecorded(s: State, step: Step)
  {
    step.Stepped? ==> step.s.sent == s.sent && step.s.received == s.received
  }

  lemma OpenRecordsNothing(s: State, path: string, flags: Flags)
    ensures NothingRecorded(s, OpenPath(s, path, flags))
  {
  }

  lemma DupRecordsNothing(s: State, id: Id, arg: DupArg)
    ensures NothingRecorded(s, Dup(s, id, arg))
  {
    if arg.Named? && id in s.handles { OpenRecordsNothing(s, arg.path, s.handles[id].flags); }
  }

  lemma OnlyDataIsRecorded(s: State, a: Action)
    requires !a.DoWrite? && !a.DoRead?
    ensures NothingRecorded(s, Next(s, a))
  {
    match a {
      case DoOpen(path, flags) => OpenRecordsNothing(s, path, flags);
      case DoDup(id, arg) => DupRecordsNothing(s, id, arg);
      case _ =>
    }
  }

  lemma WriteRecords(s: State, from: Id, bytes: seq<Byte>, nonblock: bool, id: Id)
    requires Write(s, from, bytes, nonblock).Stepped?
    ensures var step := Write(s, from, bytes, nonblock);
            && step.s.received == s.received
            && History(step.s.sent, id) == History(s.sent, id) + Accepted(DoWrite(from, bytes, nonblock), step, id)
  {
    assert History(s.sent, id) + [] == History(s.sent, id);
  }

  lemma ReadRecords(s: State, from: Id, size: nat, nonblock: bool, id: Id)
    requires Read(s, from, size, nonblock).Stepped?
    ensures var step := Read(s, from, size, nonblock);
            && step.s.sent == s.sent
            && History(step.s.received, id)
               == History(s.received, id) + Returned(DoRead(from, size, nonblock), step, id)
  {
    assert History(s.received, id) + [] == History(s.received, id);
  }

  lemma StepRecords(s: State, a: Action, id: Id)
    requires Next(s, a).Stepped?
    ensures var s' := Next(s, a).s;
            && History(s'.sent, id) == History(s.sent, id) + Accepted(a, Next(s, a), id)
            && History(s'.received, id) == History(s.received, id) + Returned(a, Next(s, a), id)
  {
    assert History(s.sent, id) + [] == History(s.sent, id) && History(s.received, id) + [] == History(s.received, id);
    match a {
      case DoWrite(from, bytes, nonblock) => WriteRecords(s, from, bytes, nonblock, id);
      case DoRead(from, size, nonblock) => ReadRecords(s, from, size, nonblock, id);
      case _ => OnlyDataIsRecorded(s, a);
    }
  }

  lemma {:induction false} HistoryIsObserved(actions: seq<Action>, id: Id)
    requires Run(actions).At?
    ensures History(Run(actions).s.sent, id) == WrittenBy(actions, id)
    ensures History(Run(actions).s.received, id) == ReadBy(actions, id)
    decreases |actions|
  {
    if actions != [] {
      var last := |actions| - 1;
      HistoryIsObserved(actions[..last], id);
      StepRecords(Run(actions[..last]).s, actions[last], id);
    }
  }

  /** In every run, what the peer was told it wrote is what was read followed by the buffer, in
      order; a client that never had a peer has nothing. */
  lemma StreamIsExact(actions: seq<Action>, a: Id)
    requires Run(actions).At? && IsClient(Run(actions).s, a)
    ensures var s := Run(actions).s;
            && (a in s.peer ==> WrittenBy(actions, s.peer[a]) == ReadBy(actions, a) + s.handles[a].extra.buffer)
            && (a !in s.peer ==> ReadBy(actions, a) == [] && s.handles[a].extra.buffer == [])
            && (forall b :: s.handles[a].extra.remote == Open(b) ==> a in s.peer && s.peer[a] == b)
  {
    NoRunPanics(actions);
    var s := Run(actions).s;
    assert StreamOf(s, a);
    HistoryIsObserved(actions, a);
    if a in s.peer { HistoryIsObserved(actions, s.peer[a]); }
  }

  /** A read into a non-empty destination returns nothing exactly when the peer is closed and
      every byte it ever wrote has been read. */
  lemma EndOfFileIsExact(actions: seq<Action>, a: Id, size: nat, nonblock: bool)
    requires Run(actions).At? && size > 0
    ensures var s := Run(actions).s;
            Read(s, a, size, nonblock).Stepped?
            && (Read(s, a, size, nonblock).answer == Ok(Data([])) <==>
                && IsClient(s, a) && a in s.peer && s.peer[a] !in s.handles
                && ReadBy(actions, a) == WrittenBy(actions, s.peer[a]))
  {
    NoRunPanics(actions);
    var s := Run(actions).s;
    if IsClient(s, a) {
      assert StreamOf(s, a);
      StreamIsExact(actions, a);
      var buffer := s.handles[a].extra.buffer;
      assert buffer != [] ==> |ReadBy(actions, a) + buffer| > |ReadBy(actions, a)|;
    }
  }

  // ---------------------------------------------------------------- readiness

  ghost predicate PostsRead(posts: seq<Post>, id: Id)
  {
    exists p :: p in posts && p.id == id && p.events.read
  }

  ghost predicate PostsWrite(posts: seq<Post>, id: Id)
  {
    exists p :: p in posts && p.id == id && p.events.write
  }

  ghost predicate Announced(before: Result<Events>, after: Result<Events>, posts: seq<Post>, id: Id)
  {
    before.Ok? && after.Ok? ==>
      && (after.value.read && !before.value.read ==> PostsRead(posts, id))
      && (after.value.write && !before.value.write ==> PostsWrite(posts, id))
  }

  /** Every flag a surviving handle gains is posted to it. */
  ghost predicate GainsArePosted(s: State, s': State, posts: seq<Post>)
  {
    forall id :: Announced(Fevent(s, id), Fevent(s', id), posts, id)
  }

  /** A step that posts `p` and gives no flag to any other handle. */
  lemma OneGain(s: State, s': State, p: Post)
    requires forall id :: id != p.id ==> Announced(Fevent(s, id), Fevent(s', id), [], id)
    requires Fevent(s, p.id).Ok? && Fevent(s', p.id).Ok?
    requires Fevent(s', p.id).value.read ==> p.events.read || Fevent(s, p.id).value.read
    requires Fevent(s', p.id).value.write ==> p.events.write || Fevent(s, p.id).value.write
    ensures GainsArePosted(s, s', [p])
  {
    assert p in [p];
    forall id ensures Announced(Fevent(s, id), Fevent(s', id), [p], id) {
      assert id != p.id ==> Announced(Fevent(s, id), Fevent(s', id), [], id);
    }
  }

  lemma AttachPosts(s: State, l: Id, flags: Flags)
    requires l in s.handles && s.nextId !in s.handles
    ensures GainsArePosted(s, Attach(s, l, flags).s, Attach(s, l, flags).posts)
  {
    if IsListener(s, l) { OneGain(s, Attach(s, l, flags).s, Post(l, Events(true, true))); }
  }

  lemma LinkPosts(s: State, l: Id, c: Id, rest: seq<Id>)
    requires s.nextId !in s.handles && IsListener(s, l) && IsClient(s, c) && s.handles[l].extra.awaiting != []
    ensures GainsArePosted(s, Link(s, l, c, rest), [Post(c, Events(false, true))])
  {
    var s' := Link(s, l, c, rest);
    forall id | id != c ensures Announced(Fevent(s, id), Fevent(s', id), [], id) {
      assert id != l && id in s.handles ==> s'.handles[id] == s.handles[id];
    }
    OneGain(s, s', Post(c, Events(false, true)));
  }

  lemma AcceptPosts(s: State, id: Id)
    requires s.nextId !in s.handles && Accept(s, id).Stepped?
    ensures GainsArePosted(s, Accept(s, id).s, Accept(s, id).posts)
  {
    if IsListener(s, id) {
      var live := SkipDead(s.handles, s.handles[id].extra.awaiting);
      if live != [] {
        assert s.handles[id].extra.awaiting != [];
        LinkPosts(s, id, live[0], live[1..]);
      }
    }
  }

  lemma WritePosts(s: State, id: Id, bytes: seq<Byte>, nonblock: bool)
    requires Write(s, id, bytes, nonblock).Stepped?
    ensures GainsArePosted(s, Write(s, id, bytes, nonblock).s, Write(s, id, bytes, nonblock).posts)
  {
    var step := Write(s, id, bytes, nonblock);
    if step.posts != [] { OneGain(s, step.s, step.posts[0]); }
  }

  lemma ClosePosts(s: State, id: Id)
    requires Close(s, id).Stepped?
    ensures GainsArePosted(s, Close(s, id).s, Close(s, id).posts)
  {
    var step := Close(s, id);
    if step.posts != [] { OneGain(s, step.s, step.posts[0]); }
  }

  lemma OpenPosts(s: State, path: string, flags: Flags)
    requires s.nextId !in s.handles && OpenPath(s, path, flags).Stepped?
    ensures GainsArePosted(s, OpenPath(s, path, flags).s, OpenPath(s, path, flags).posts)
  {
    if path in s.listeners && s.listeners[path] in s.handles { AttachPosts(s, s.listeners[path], flags); }
  }

  lemma StepPostsGains(s: State, a: Action)
    requires s.nextId !in s.handles && Next(s, a).Stepped?
    ensures GainsArePosted(s, Next(s, a).s, Next(s, a).posts)
  {
    match a {
      case DoOpen(path, flags) => OpenPosts(s, path, flags);
      case DoDup(id, arg) =>
        match arg {
          case Listen => AcceptPosts(s, id);
          case Connect => if id in s.handles { AttachPosts(s, id, NO_FLAGS); }
          case Named(path) =>
            if path != "" && id in s.handles && s.handles[id].path.None? { OpenPosts(s, path, s.handles[id].flags); }
          case NotUtf8 =>
        }
      case DoWrite(id, bytes, nonblock) => WritePosts(s, id, bytes, nonblock);
      case DoClose(id) => ClosePosts(s, id);
      case _ =>
    }
  }

  /** In every run, each step announces every readiness flag that it gives to a handle that
      already existed and still exists. */
  lemma ReadinessIsComplete(actions: seq<Action>, a: Action)
    requires Run(actions).At? && Enabled(Run(actions).s, a)
    ensures var s := Run(actions).s;
            Next(s, a).Stepped? && GainsArePosted(s, Next(s, a).s, Next(s, a).posts)
  {
    NoRunPanics(actions);
    StepKeeps(Run(actions).s, a);
    StepPostsGains(Run(actions).s, a);
  }
}

/** The channel scheme as it runs: an object updating its tables in place. The lookups the
    source unwraps are plain lookups here; the invariant is what makes them succeed. */
module ChanObject {
  import opened Wrappers
  import opened Chan
  import opened ChanTheorems
  import C = Chan

  class ChanScheme {
    var handles: map<Id, Handle>
    var listeners: map<string, Id>
    var nextId: Id
    ghost var sent: map<Id, seq<Byte>>
    ghost var received: map<Id, seq<Byte>>
    ghost var peer: map<Id, Id>

    ghost function Model(): (s: State)
      reads this
    {
      State(handles, listeners, nextId, sent, received, peer)
    }

    ghost predicate Valid()
      reads this
    {
      Inv(Model())
    }

    constructor ()
      ensures Model() == EMPTY && Valid()
    {
      handles, listeners, nextId, sent, received, peer := map[], map[], 0, map[], map[], map[];
    }

    method Attach(l: Id, flags: Flags) returns (r: Result<Answer>, posts: seq<Post>)
      requires Valid() && l in handles
      modifies this
      ensures Valid() && Stepped(Model(), r, posts) == old(C.Attach(Model(), l, flags))
    {
      ghost var after := C.Attach(Model(), l, flags);
      AttachKeeps(Model(), l, flags);
      if !handles[l].extra.Listener? { return Err(EBADF), []; }
      var h, id := handles[l], nextId;
      handles := handles[l := h.(extra := h.extra.(awaiting := h.extra.awaiting + [id]))];
      posts := [Post(l, Events(true, true))];
      handles := handles[id := Handle(flags, Client([], Waiting), None)];
      nextId := id + 1;
      assert Model() == after.s;
      return Ok(NewHandle(id)), posts;
    }

    method Open(path: string, flags: Flags) returns (r: Result<Answer>, posts: seq<Post>)
      requires Valid()
      modifies this
      ensures Valid() && Stepped(Model(), r, posts) == old(OpenPath(Model(), path, flags))
    {
      ghost var after := OpenPath(Model(), path, flags);
      OpenKeeps(Model(), path, flags);
      var id := nextId;
      if flags.create && path !in listeners {
        var name := None;
        if path != "" {
          listeners := listeners[path := id];
          name := Some(path);
        }
        handles := handles[id := Handle(flags, Listener(name, []), None)];
        nextId := id + 1;
        assert Model() == after.s;
        return Ok(NewHandle(id)), [];
      }
      if flags.create && flags.excl { return Err(EEXIST), []; }
      if path !in listeners { return Err(ENOENT), []; }
      r, posts := Attach(listeners[path], flags);
    }

    /** The accept loop: clients that closed while queued are dropped one by one. */
    method FirstLive(awaiting: seq<Id>) returns (queue: seq<Id>)
      ensures queue == SkipDead(handles, awaiting)
    {
      queue := awaiting;
      while queue != [] && queue[0] !in handles
        invariant SkipDead(handles, queue) == SkipDead(handles, awaiting)
        decreases |queue|
      {
        queue := queue[1..];
      }
    }

    method Hook(l: Id, c: Id, rest: seq<Id>)
      requires l in handles && handles[l].extra.Listener? && c in handles && handles[c].extra.Client?
      modifies this
      ensures Model() == old(Link(Model(), l, c, rest))
    {
      var h, remote, n := handles[l], handles[c], nextId;
      handles := handles[l := h.(extra := h.extra.(awaiting := rest))];
      handles := handles[c := remote.(extra := remote.extra.(remote := Connection.Open(n)))];
      handles := handles[n := Handle(h.flags, Client([], Connection.Open(c)), h.extra.name)];
      nextId := n + 1;
      peer := peer[c := n][n := c];
    }

    method Accept(id: Id) returns (r: Result<Answer>, posts: seq<Post>)
      requires Valid()
      modifies this
      ensures Valid() && Stepped(Model(), r, posts) == old(C.Accept(Model(), id))
    {
      AcceptKeeps(Model(), id);
      if id !in handles || !handles[id].extra.Listener? { return Err(EBADF), []; }
      var h, n := handles[id], nextId;
      var queue := FirstLive(h.extra.awaiting);
      if queue == [] {
        handles := handles[id := h.(extra := h.extra.(awaiting := []))];
        return if h.flags.nonblock then Ok(WouldBlock) else Err(EWOULDBLOCK), [];
      }
      Hook(id, queue[0], queue[1..]);
      return Ok(NewHandle(n)), [Post(queue[0], Events(false, true))];
    }

    method Dup(id: Id, arg: DupArg) returns (r: Result<Answer>, posts: seq<Post>)
      requires Valid()
      modifies this
      ensures Valid() && Stepped(Model(), r, posts) == old(C.Dup(Model(), id, arg))
    {
      match arg
      case Listen => r, posts := Accept(id);
      case Connect =>
        if id !in handles { return Err(EBADF), []; }
        r, posts := Attach(id, NO_FLAGS);
      case NotUtf8 => return Err(EBADF), [];
      case Named(path) =>
        if path == "" || id !in handles || handles[id].path.Some? { return Err(EBADF), []; }
        r, posts := Open(path, handles[id].flags);
    }

    method Write(id: Id, bytes: seq<Byte>, nonblock: bool) returns (r: Result<Answer>, posts: seq<Post>)
      requires Valid()
      modifies this
      ensures Valid() && Stepped(Model(), r, posts) == old(C.Write(Model(), id, bytes, nonblock))
    {
      StepKeeps(Model(), DoWrite(id, bytes, nonblock));
      if id !in handles || !handles[id].extra.Client? { return Err(EBADF), []; }
      match handles[id].extra.remote
      case Closed => return Err(EPIPE), [];
      case Waiting => return Err(if nonblock then EAGAIN else EWOULDBLOCK), [];
      case Open(to) =>
        var h := handles[to];
        var buffer := h.extra.buffer + bytes;
        handles := handles[to := h.(extra := h.extra.(buffer := buffer))];
        sent := sent[id := History(sent, id) + bytes];
        posts := if |buffer| == |bytes| then [Post(to, Events(true, false))] else [];
        return Ok(Count(|bytes|)), posts;
    }

    method Read(id: Id, size: nat, nonblock: bool) returns (r: Result<Answer>)
      requires Valid()
      modifies this
      ensures Valid() && Stepped(Model(), r, []) == old(C.Read(Model(), id, size, nonblock))
    {
      StepKeeps(Model(), DoRead(id, size, nonblock));
      if id !in handles || !handles[id].extra.Client? { return Err(EBADF); }
      var h := handles[id];
      var buffer := h.extra.buffer;
      if buffer != [] {
        var len := if size < |buffer| then size else |buffer|;
        handles := handles[id := h.(extra := h.extra.(buffer := buffer[len..]))];
        received := received[id := History(received, id) + buffer[..len]];
        return Ok(Data(buffer[..len]));
      }
      if h.extra.remote.Closed? { return Ok(Data([])); }
      return Err(if nonblock then EAGAIN else EWOULDBLOCK);
    }

    method Close(id: Id) returns (posts: seq<Post>)
      requires Valid() && id in handles
      modifies this
      ensures Valid() && Stepped(Model(), Ok(Count(0)), posts) == old(C.Close(Model(), id))
    {
      StepKeeps(Model(), DoClose(id));
      var h := handles[id];
      handles := handles - {id};
      posts := [];
      match h.extra
      case Listener(name, _) =>
        if name.Some? { listeners := listeners - {name.value}; }
      case Client(_, remote) =>
        if remote.Open? {
          var other := handles[remote.peer];
          handles := handles[remote.peer := other.(extra := other.extra.(remote := Closed))];
          if other.extra.buffer == [] { posts := [Post(remote.peer, Events(true, false))]; }
        }
    }
  }
}
