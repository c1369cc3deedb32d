/** The pseudo-terminal: line discipline, buffering and the two packet queues, as functions
    from one terminal state to the next. */
module PtyModel {
  import opened Wrappers

  type Byte = n: nat | n < 256
  type Bytes = seq<Byte>
  type U64 = n: nat | n < 0x1_0000_0000_0000_0000

  const NL: Byte := 10
  const CR: Byte := 13

  const SIGINT := 2
  const SIGQUIT := 3
  const SIGTSTP := 20

  /** Control characters; 0 disables one. */
  datatype Chars = Chars(eof: Byte, eol: Byte, eol2: Byte, erase: Byte, werase: Byte, kill: Byte, reprint: Byte,
                         intr: Byte, quit: Byte, susp: Byte, start: Byte, stop: Byte, lnext: Byte, discard: Byte,
                         min: Byte, time: Byte)

  datatype Termios = Termios(inlcr: bool, igncr: bool, icrnl: bool, echo: bool, echoe: bool, echonl: bool,
                             icanon: bool, isig: bool, iexten: bool, ixon: bool, opost: bool, onlcr: bool, cc: Chars)

  /** `mosi` holds packets for the slave, `miso` packets for the master, each of those with a
      header byte; `signals` is what was sent to the foreground group. */
  datatype Pty = Pty(cooked: Bytes, mosi: seq<Bytes>, miso: seq<Bytes>, clock: U64, timer: Option<U64>,
                     hasGroup: bool, signals: seq<nat>)

  // ---------------------------------------------------------------- output

  function PostProcess(t: Termios, bytes: Bytes): (r: Bytes)
  {
    if bytes == [] then [] else
    (if t.opost && t.onlcr && bytes[0] == NL then [CR, NL] else [bytes[0]]) + PostProcess(t, bytes[1..])
  }

  function Output(t: Termios, p: Pty, bytes: Bytes): (r: Pty)
  {
    p.(miso := p.miso + [[0] + PostProcess(t, bytes)])
  }

  // ---------------------------------------------------------------- input

  /** What one byte means to the line discipline. */
  datatype Key =
    | Ignored
    | Char(c: Byte)
    | EndOfLine(c: Byte, echoed: bool)
    | EndOfFile
    | Erase
    | Signal(sig: nat)

  function Translate(t: Termios, byte: Byte): (b: Byte)
  {
    if byte == NL then (if t.inlcr then CR else byte)
    else if byte == CR then (if t.igncr then 0 else if t.icrnl then NL else byte)
    else byte
  }

  predicate Is(b: Byte, c: Byte)
  {
    b != 0 && b == c
  }

  /** The rules of canonical mode, for a byte that is not consumed yet. */
  function CanonicalRule(t: Termios, b: Byte): (k: Option<Key>)
  {
    var cc := t.cc;
    if !t.icanon || b == 0 then None
    else if b == NL then Some(EndOfLine(b, t.echo || t.echonl))
    else if b == cc.eof then Some(EndOfFile)
    else if b == cc.eol || b == cc.eol2 then Some(EndOfLine(b, t.echo))
    else if b == cc.erase then Some(Erase)
    else if (b == cc.werase && t.iexten) || b == cc.kill || (b == cc.reprint && t.iexten) then Some(Ignored)
    else None
  }

  /** The rules for signals and flow control. */
  function SignalRule(t: Termios, b: Byte): (k: Option<Key>)
  {
    var cc := t.cc;
    if b == 0 then None
    else if t.isig && b == cc.intr then Some(Signal(SIGINT))
    else if t.isig && b == cc.quit then Some(Signal(SIGQUIT))
    else if t.isig && b == cc.susp then Some(Signal(SIGTSTP))
    else if t.ixon && (b == cc.start || b == cc.stop) then Some(Ignored)
    else None
  }

  function Classify(t: Termios, byte: Byte): (k: Key)
  {
    var b := Translate(t, byte);
    match (CanonicalRule(t, b), SignalRule(t, b))
    case (Some(k), _) => k
    case (None, Some(k)) => k
    case (None, None) =>
      if b == 0 || (t.iexten && (b == t.cc.lnext || b == t.cc.discard)) then Ignored else Char(b)
  }

  function Echo(t: Termios, p: Pty, bytes: Bytes, enabled: bool): (r: Pty)
  {
    if enabled then Output(t, p, bytes) else p
  }

  function Apply(t: Termios, p: Pty, k: Key): (r: Pty)
  {
    match k
    case Ignored => p
    case EndOfLine(c, echoed) =>
      Echo(t, p, [c], echoed).(mosi := p.mosi + [p.cooked + [c]], cooked := [])
    case EndOfFile => p.(mosi := p.mosi + [p.cooked], cooked := [])
    case Erase =>
      if p.cooked == [] then p
      else Echo(t, p, [8, 32, 8], t.echoe).(cooked := p.cooked[..|p.cooked| - 1])
    case Signal(sig) => if p.hasGroup then p.(signals := p.signals + [sig]) else p
    case Char(c) => Echo(t, p, [c], t.echo).(timer := Some(p.clock), cooked := p.cooked + [c])
  }

  function Typed(t: Termios, p: Pty, bytes: Bytes): (r: Pty)
    decreases |bytes|
  {
    if bytes == [] then p else Typed(t, Apply(t, p, Classify(t, bytes[0])), bytes[1..])
  }

  function Input(t: Termios, p: Pty, bytes: Bytes): (r: Pty)
  {
    Update(t, Typed(t, p, bytes))
  }

  // ---------------------------------------------------------------- non-canonical buffering

  function Flush(p: Pty): (r: Pty)
  {
    p.(mosi := p.mosi + [p.cooked], cooked := [])
  }

  predicate Expired(t: Termios, p: Pty)
    requires p.timer.Some?
  {
    p.clock >= (p.timer.value + t.cc.time) % 0x1_0000_0000_0000_0000
  }

  function Update(t: Termios, p: Pty): (r: Pty)
  {
    if t.icanon then p
    else if t.cc.time == 0 then
      if t.cc.min == 0 then (if p.mosi == [] then Flush(p) else p)
      else if |p.cooked| >= t.cc.min then Flush(p) else p
    else if t.cc.min == 0 then
      if p.cooked != [] then Flush(p)
      else if p.timer.None? then p.(timer := Some(p.clock))
      else if !Expired(t, p) then p
      else if p.mosi == [] then Flush(p).(timer := None) else p.(timer := None)
    else if |p.cooked| >= t.cc.min then Flush(p)
    else if p.cooked != [] && p.timer.Some? && Expired(t, p) then Flush(p).(timer := None)
    else p
  }

  function Timeout(t: Termios, p: Pty, count: U64): (r: Pty)
  {
    if p.clock == count then p else Update(t, p.(clock := count))
  }

  // ---------------------------------------------------------------- reads

  function Take(packet: Bytes, size: nat): (n: nat)
    ensures n <= |packet|
  {
    if size < |packet| then size else |packet|
  }

  /** The slave gets the front of a packet; the rest stays in front of the queue. */
  function SlaveRead(t: Termios, p: Pty, size: nat, nonblock: bool): (r: (Pty, Result<Bytes>))
  {
    var q := Update(t, p);
    if q.mosi == [] then (q, Err(if nonblock then EAGAIN else EWOULDBLOCK)) else
    var packet, n := q.mosi[0], Take(q.mosi[0], size);
    (q.(mosi := (if n < |packet| then [packet[n..]] else []) + q.mosi[1..]), Ok(packet[..n]))
  }

  /** The master gets the front of a packet; the rest stays, under the same header. */
  function MasterRead(p: Pty, size: nat, nonblock: bool): (r: (Pty, Result<Bytes>))
  {
    if p.miso == [] then (p, Err(if nonblock then EAGAIN else EWOULDBLOCK)) else
    var packet, n := p.miso[0], Take(p.miso[0], size);
    (p.(miso := (if n < |packet| then [[packet[0]] + packet[n..]] else []) + p.miso[1..]), Ok(packet[..n]))
  }

  function Sync(p: Pty): (r: Pty)
  {
    p.(miso := p.miso + [[1]])
  }
}

/** What the line discipline and the packet queues promise. */
module PtyTheorems {
  import opened PtyModel

  // ---------------------------------------------------------------- chunking

  lemma {:induction false} TypedConcat(t: Termios, p: Pty, a: Bytes, b: Bytes)
    ensures Typed(t, p, a + b) == Typed(t, Typed(t, p, a), b)
    decreases |a|
  {
    if a == [] {
      assert a + b == b;
    } else {
      assert (a + b)[1..] == a[1..] + b;
      TypedConcat(t, Apply(t, p, Classify(t, a[0])), a[1..], b);
    }
  }

  function InputAll(t: Termios, p: Pty, chunks: seq<Bytes>): (r: Pty)
    decreases |chunks|
  {
    if chunks == [] then p else InputAll(t, Input(t, p, chunks[0]), chunks[1..])
  }

  function Flatten(chunks: seq<Bytes>): (r: Bytes)
  {
    if chunks == [] then [] else chunks[0] + Flatten(chunks[1..])
  }

  /** In canonical mode lines, unfinished line, echo and signals do not depend on how the bytes
      are cut into writes. */
  lemma {:induction false} ChunkingIsIrrelevant(t: Termios, p: Pty, chunks: seq<Bytes>)
    requires t.icanon
    ensures InputAll(t, p, chunks) == Input(t, p, Flatten(chunks))
    decreases |chunks|
  {
    if chunks != [] {
      ChunkingIsIrrelevant(t, Input(t, p, chunks[0]), chunks[1..]);
      TypedConcat(t, p, chunks[0], Flatten(chunks[1..]));
    }
  }

  // ---------------------------------------------------------------- line editing

  function Keys(t: Termios, bytes: Bytes): (ks: seq<Key>)
    ensures |ks| == |bytes|
  {
    seq(|bytes|, i requires 0 <= i < |bytes| => Classify(t, bytes[i]))
  }

  predicate Ends(k: Key)
  {
    k.EndOfLine? || k.EndOfFile?
  }

  /** The characters of a stretch of keys that no later erase cancels, with `pending` erases
      still to cancel something: read from the end, each erase cancels the nearest character
      before it that is not cancelled yet. */
  function Surviving(ks: seq<Key>, pending: nat): (r: Bytes)
  {
    if ks == [] then [] else
    var last := |ks| - 1;
    match ks[last]
    case Char(c) => if pending > 0 then Surviving(ks[..last], pending - 1) else Surviving(ks[..last], 0) + [c]
    case Erase => Surviving(ks[..last], pending + 1)
    case _ => Surviving(ks[..last], pending)
  }

  /** Where the unfinished line starts. */
  function LineStart(ks: seq<Key>): (i: nat)
    ensures i <= |ks|
  {
    if ks == [] then 0 else
    if Ends(ks[|ks| - 1]) then |ks| else LineStart(ks[..|ks| - 1])
  }

  function Unfinished(ks: seq<Key>): (line: Bytes)
  {
    Surviving(ks[LineStart(ks)..], 0)
  }

  /** The finished lines: what survives of each stretch, with the character that ended it. */
  function Lines(ks: seq<Key>): (lines: seq<Bytes>)
  {
    if ks == [] then [] else
    var before, k := ks[..|ks| - 1], ks[|ks| - 1];
    if k.EndOfLine? then Lines(before) + [Unfinished(before) + [k.c]]
    else if k.EndOfFile? then Lines(before) + [Unfinished(before)]
    else Lines(before)
  }

  /** Each pending erase takes one character off the end. */
  lemma {:induction false} PendingErases(ks: seq<Key>, pending: nat)
    ensures var all := Surviving(ks, 0);
            Surviving(ks, pending) == all[..if pending <= |all| then |all| - pending else 0]
    decreases |ks|
  {
    if ks != [] {
      var last := |ks| - 1;
      var init := ks[..last];
      PendingErases(init, 0);
      PendingErases(init, 1);
      PendingErases(init, pending);
      PendingErases(init, pending + 1);
      if pending > 0 { PendingErases(init, pending - 1); }
    }
  }

  lemma SnocStart(ks: seq<Key>, k: Key)
    requires !Ends(k)
    ensures LineStart(ks + [k]) == LineStart(ks)
    ensures (ks + [k])[LineStart(ks)..] == ks[LineStart(ks)..] + [k]
  {
    assert (ks + [k])[..|ks|] == ks;
  }

  /** One more key acts on the unfinished line alone. */
  lemma UnfinishedSnoc(ks: seq<Key>, k: Key)
    ensures Unfinished(ks + [k]) ==
            match k
            case Char(c) => Unfinished(ks) + [c]
            case Erase => if Unfinished(ks) == [] then [] else Unfinished(ks)[..|Unfinished(ks)| - 1]
            case EndOfLine(_, _) => []
            case EndOfFile => []
            case _ => Unfinished(ks)
  {
    assert (ks + [k])[..|ks|] == ks;
    if Ends(k) {
      assert (ks + [k])[|ks| + 1..] == [];
    } else {
      SnocStart(ks, k);
      var line := ks[LineStart(ks)..];
      assert (line + [k])[..|line|] == line;
      PendingErases(line, 1);
    }
  }

  /** The line that key `k` finishes, if it finishes one. */
  function Finishes(line: Bytes, k: Key): (lines: seq<Bytes>)
  {
    if k.EndOfLine? then [line + [k.c]] else if k.EndOfFile? then [line] else []
  }

  lemma LinesSnoc(ks: seq<Key>, k: Key)
    ensures Lines(ks + [k]) == Lines(ks) + Finishes(Unfinished(ks), k)
  {
    assert (ks + [k])[..|ks|] == ks && Lines(ks) + [] == Lines(ks);
  }

  /** A line typed without any editing. */
  function Plain(line: Bytes): (ks: seq<Key>)
    ensures |ks| == |line|
  {
    seq(|line|, i requires 0 <= i < |line| => Char(line[i]))
  }

  lemma {:induction false} PlainIsUnfinished(line: Bytes)
    ensures LineStart(Plain(line)) == 0 && Lines(Plain(line)) == []
    ensures Surviving(Plain(line), 0) == line && Unfinished(Plain(line)) == line
    decreases |line|
  {
    if line != [] {
      var last := |line| - 1;
      PlainIsUnfinished(line[..last]);
      assert Plain(line)[..last] == Plain(line[..last]);
      assert line[..last] + [line[last]] == line;
    }
    assert Plain(line)[0..] == Plain(line);
  }

  lemma TypedSnoc(t: Termios, p: Pty, bytes: Bytes)
    requires bytes != []
    ensures var last := |bytes| - 1;
            && Typed(t, p, bytes) == Apply(t, Typed(t, p, bytes[..last]), Classify(t, bytes[last]))
            && Keys(t, bytes)[..last] == Keys(t, bytes[..last]) && Keys(t, bytes)[last] == Classify(t, bytes[last])
  {
    var last := |bytes| - 1;
    assert bytes[..last] + [bytes[last]] == bytes && [bytes[last]][1..] == [];
    TypedConcat(t, p, bytes[..last], [bytes[last]]);
  }

  lemma Associative<T>(a: seq<T>, b: seq<T>, c: seq<T>)
    ensures a + b + c == a + (b + c)
  {
  }

  lemma ApplyFinishes(t: Termios, p: Pty, k: Key, ks: seq<Key>)
    requires p.cooked == Unfinished(ks)
    ensures Apply(t, p, k).mosi == p.mosi + Finishes(p.cooked, k) && Apply(t, p, k).cooked == Unfinished(ks + [k])
  {
    UnfinishedSnoc(ks, k);
    assert p.mosi + [] == p.mosi;
  }

  lemma KeysSnoc(t: Termios, line: Bytes, bytes: Bytes)
    requires bytes != []
    ensures var last := |bytes| - 1;
            Plain(line) + Keys(t, bytes) == Plain(line) + Keys(t, bytes[..last]) + [Classify(t, bytes[last])]
  {
  }

  lemma {:induction false} TypedMatchesLines(t: Termios, p: Pty, bytes: Bytes)
    ensures var r, ks := Typed(t, p, bytes), Plain(p.cooked) + Keys(t, bytes);
            r.mosi == p.mosi + Lines(ks) && r.cooked == Unfinished(ks)
    decreases |bytes|
  {
    if bytes == [] {
      PlainIsUnfinished(p.cooked);
      assert Plain(p.cooked) + Keys(t, bytes) == Plain(p.cooked) && p.mosi + [] == p.mosi;
    } else {
      var last := |bytes| - 1;
      var k, before := Classify(t, bytes[last]), Plain(p.cooked) + Keys(t, bytes[..last]);
      TypedMatchesLines(t, p, bytes[..last]);
      TypedSnoc(t, p, bytes);
      KeysSnoc(t, p.cooked, bytes);
      ApplyFinishes(t, Typed(t, p, bytes[..last]), k, before);
      LinesSnoc(before, k);
      Associative(p.mosi, Lines(before), Finishes(Unfinished(before), k));
    }
  }

  /** Canonical input is the line-editing specification, continuing the unfinished line: erase
      touches only that line, and each line ends with the character that ended it. */
  lemma CanonicalInputIsLineEditing(t: Termios, p: Pty, chunks: seq<Bytes>)
    requires t.icanon
    ensures var r, ks := InputAll(t, p, chunks), Plain(p.cooked) + Keys(t, Flatten(chunks));
            r.mosi == p.mosi + Lines(ks) && r.cooked == Unfinished(ks)
  {
    ChunkingIsIrrelevant(t, p, chunks);
    TypedMatchesLines(t, p, Flatten(chunks));
  }

  // ---------------------------------------------------------------- echo

  function Packet(t: Termios, bytes: Bytes): (r: Bytes)
  {
    [0] + PostProcess(t, bytes)
  }

  /** What one key shows on the screen while the unfinished line is `line`. */
  function EchoOf(t: Termios, k: Key, line: Bytes): (r: seq<Bytes>)
  {
    match k
    case Char(c) => if t.echo then [Packet(t, [c])] else []
    case EndOfLine(c, echoed) => if echoed then [Packet(t, [c])] else []
    case Erase => if t.echoe && line != [] then [Packet(t, [8, 32, 8])] else []
    case _ => []
  }

  /** What the keys `ks` show, typed after the keys `before`. */
  function Echoes(t: Termios, before: seq<Key>, ks: seq<Key>): (r: seq<Bytes>)
    decreases |ks|
  {
    if ks == [] then [] else
    var last := |ks| - 1;
    Echoes(t, before, ks[..last]) + EchoOf(t, ks[last], Unfinished(before + ks[..last]))
  }

  lemma ApplyEchoes(t: Termios, p: Pty, k: Key)
    ensures Apply(t, p, k).miso == p.miso + EchoOf(t, k, p.cooked)
  {
    assert p.miso + [] == p.miso;
  }

  lemma {:induction false} TypedEchoes(t: Termios, p: Pty, bytes: Bytes)
    ensures Typed(t, p, bytes).miso == p.miso + Echoes(t, Plain(p.cooked), Keys(t, bytes))
    decreases |bytes|
  {
    if bytes == [] {
      assert p.miso + [] == p.miso;
    } else {
      var last := |bytes| - 1;
      var init, k, q := bytes[..last], Classify(t, bytes[last]), Typed(t, p, bytes[..last]);
      TypedEchoes(t, p, init);
      TypedMatchesLines(t, p, init);
      TypedSnoc(t, p, bytes);
      ApplyEchoes(t, q, k);
      Associative(p.miso, Echoes(t, Plain(p.cooked), Keys(t, init)), EchoOf(t, k, q.cooked));
    }
  }

  lemma UpdateShowsNothing(t: Termios, p: Pty)
    ensures Update(t, p).miso == p.miso
  {
  }

  /** In every mode the screen is sent exactly the echo of what was typed: characters and line
      ends as the flags ask, and a rub-out for an erase that had something to erase. */
  lemma EchoIsExact(t: Termios, p: Pty, bytes: Bytes)
    ensures Input(t, p, bytes).miso == p.miso + Echoes(t, Plain(p.cooked), Keys(t, bytes))
  {
    TypedEchoes(t, p, bytes);
    UpdateShowsNothing(t, Typed(t, p, bytes));
  }

  /** A newline under ECHONL, or a rub-out under ECHOE. */
  ghost predicate ShowsNoCharacter(t: Termios, packet: Bytes)
  {
    (t.echonl && packet == Packet(t, [NL])) || (t.echoe && packet == Packet(t, [8, 32, 8]))
  }

  lemma KeyShowsNoCharacter(t: Termios, byte: Byte, line: Bytes, packet: Bytes)
    requires !t.echo && packet in EchoOf(t, Classify(t, byte), line)
    ensures ShowsNoCharacter(t, packet)
  {
  }

  /** Without ECHO no typed character is shown. */
  lemma {:induction false} NoEchoHidesCharacters(t: Termios, before: seq<Key>, bytes: Bytes, packet: Bytes)
    requires !t.echo && packet in Echoes(t, before, Keys(t, bytes))
    ensures ShowsNoCharacter(t, packet)
    decreases |bytes|
  {
    if bytes != [] {
      var last := |bytes| - 1;
      var ks := Keys(t, bytes);
      assert ks[..last] == Keys(t, bytes[..last]);
      if packet in Echoes(t, before, ks[..last]) {
        NoEchoHidesCharacters(t, before, bytes[..last], packet);
      } else {
        KeyShowsNoCharacter(t, bytes[last], Unfinished(before + ks[..last]), packet);
      }
    }
  }

  // ---------------------------------------------------------------- nothing is lost towards the slave

  /** What the slave will still get, in order. */
  function Waiting(p: Pty): (r: Bytes)
  {
    Flatten(p.mosi) + p.cooked
  }

  lemma {:induction false} FlattenConcat(a: seq<Bytes>, b: seq<Bytes>)
    ensures Flatten(a + b) == Flatten(a) + Flatten(b)
    decreases |a|
  {
    if a == [] {
      assert a + b == b;
    } else {
      assert (a + b)[1..] == a[1..] + b;
      FlattenConcat(a[1..], b);
    }
  }

  lemma FlattenOne(a: Bytes)
    ensures Flatten([a]) == a
  {
    assert [a][1..] == [] && a + [] == a;
  }

  lemma FlushKeeps(p: Pty)
    ensures Waiting(Flush(p)) == Waiting(p)
  {
    FlattenConcat(p.mosi, [p.cooked]);
    FlattenOne(p.cooked);
  }

  lemma UpdateKeeps(t: Termios, p: Pty)
    ensures Waiting(Update(t, p)) == Waiting(p)
  {
    FlushKeeps(p);
  }

  lemma SlaveReadKeeps(t: Termios, p: Pty, size: nat, nonblock: bool)
    ensures var (q, r) := SlaveRead(t, p, size, nonblock);
            Waiting(p) == (if r.Ok? then r.value else []) + Waiting(q)
  {
    UpdateKeeps(t, p);
    var q := Update(t, p);
    if q.mosi != [] {
      var packet, n := q.mosi[0], Take(q.mosi[0], size);
      FlattenOne(packet[n..]);
      FlattenConcat(if n < |packet| then [packet[n..]] else [], q.mosi[1..]);
      assert packet == packet[..n] + packet[n..];
    }
  }

  datatype SlaveAction = TypeIn(bytes: Bytes) | Tick(count: U64) | Poll | ReadSome(size: nat, nonblock: bool)

  function Act(t: Termios, p: Pty, a: SlaveAction): (r: (Pty, Bytes))
  {
    match a
    case TypeIn(bytes) => (Input(t, p, bytes), [])
    case Tick(count) => (Timeout(t, p, count), [])
    case Poll => (Update(t, p), [])
    case ReadSome(size, nonblock) =>
      var (q, res) := SlaveRead(t, p, size, nonblock);
      (q, if res.Ok? then res.value else [])
  }

  /** Each step may find other terminal settings. */
  function ActAll(p: Pty, steps: seq<(Termios, SlaveAction)>): (r: (Pty, Bytes))
    decreases |steps|
  {
    if steps == [] then (p, []) else
    var (q, got) := Act(steps[0].0, p, steps[0].1);
    var (last, more) := ActAll(q, steps[1..]);
    (last, got + more)
  }

  /** The bytes input adds for the slave outside canonical mode: every character typed. */
  function CharsOf(ks: seq<Key>): (r: Bytes)
  {
    if ks == [] then [] else (if ks[0].Char? then [ks[0].c] else []) + CharsOf(ks[1..])
  }

  lemma {:induction false} RawInputAdds(t: Termios, p: Pty, bytes: Bytes)
    requires !t.icanon
    ensures Waiting(Input(t, p, bytes)) == Waiting(p) + CharsOf(Keys(t, bytes))
  {
    RawTypedAdds(t, p, bytes);
    UpdateKeeps(t, Typed(t, p, bytes));
  }

  lemma {:induction false} RawTypedAdds(t: Termios, p: Pty, bytes: Bytes)
    requires !t.icanon
    ensures Waiting(Typed(t, p, bytes)) == Waiting(p) + CharsOf(Keys(t, bytes))
    decreases |bytes|
  {
    if bytes == [] {
      assert Waiting(p) + [] == Waiting(p);
    } else {
      var k := Classify(t, bytes[0]);
      var q := Apply(t, p, k);
      RawTypedAdds(t, q, bytes[1..]);
      assert Keys(t, bytes)[1..] == Keys(t, bytes[1..]);
      assert Waiting(q) == Waiting(p) + if k.Char? then [k.c] else [];
      assert Waiting(p) + (if k.Char? then [k.c] else []) + CharsOf(Keys(t, bytes[1..]))
          == Waiting(p) + ((if k.Char? then [k.c] else []) + CharsOf(Keys(t, bytes[1..])));
    }
  }

  function TypedBy(t: Termios, a: SlaveAction): (ks: seq<Key>)
  {
    if a.TypeIn? then Keys(t, a.bytes) else []
  }

  /** Everything typed in a run, each part under the settings it met. */
  function KeysTyped(steps: seq<(Termios, SlaveAction)>): (ks: seq<Key>)
  {
    if steps == [] then [] else TypedBy(steps[0].0, steps[0].1) + KeysTyped(steps[1..])
  }

  lemma {:induction false} CharsConcat(a: seq<Key>, b: seq<Key>)
    ensures CharsOf(a + b) == CharsOf(a) + CharsOf(b)
    decreases |a|
  {
    if a == [] {
      assert a + b == b;
    } else {
      assert (a + b)[1..] == a[1..] + b;
      CharsConcat(a[1..], b);
    }
  }

  lemma RawActKeeps(t: Termios, p: Pty, a: SlaveAction)
    requires a.TypeIn? ==> !t.icanon
    ensures Act(t, p, a).1 + Waiting(Act(t, p, a).0) == Waiting(p) + CharsOf(TypedBy(t, a))
  {
    match a {
      case TypeIn(bytes) => RawInputAdds(t, p, bytes);
      case Tick(count) => UpdateKeeps(t, p.(clock := count));
      case Poll => UpdateKeeps(t, p);
      case ReadSome(size, nonblock) => SlaveReadKeeps(t, p, size, nonblock);
    }
  }

  /** For every sequence of raw inputs, updates, clock ticks and slave reads, the last three in
      any mix of modes: delivered bytes, then queued packets, then the unfinished line are what
      they were, followed by every character typed. */
  lemma {:induction false} NothingIsLost(p: Pty, steps: seq<(Termios, SlaveAction)>)
    requires forall i :: 0 <= i < |steps| && steps[i].1.TypeIn? ==> !steps[i].0.icanon
    ensures var (q, got) := ActAll(p, steps);
            got + Waiting(q) == Waiting(p) + CharsOf(KeysTyped(steps))
    decreases |steps|
  {
    if steps == [] {
      assert [] + Waiting(p) == Waiting(p) + [];
    } else {
      var (t, a) := steps[0];
      var (q, got) := Act(t, p, a);
      RawActKeeps(t, p, a);
      NothingIsLost(q, steps[1..]);
      var (last, more) := ActAll(q, steps[1..]);
      Associative(got, more, Waiting(last));
      Associative(got, Waiting(q), CharsOf(KeysTyped(steps[1..])));
      Associative(Waiting(p), CharsOf(TypedBy(t, a)), CharsOf(KeysTyped(steps[1..])));
      CharsConcat(TypedBy(t, a), KeysTyped(steps[1..]));
    }
  }

  lemma SameUnfinished(x: seq<Key>, y: seq<Key>, k: Key)
    requires Unfinished(x) == Unfinished(y)
    ensures Unfinished(x + [k]) == Unfinished(y + [k])
  {
    UnfinishedSnoc(x, k);
    UnfinishedSnoc(y, k);
  }

  lemma ResumedSnoc(done: seq<Bytes>, x: seq<Key>, y: seq<Key>, k: Key)
    requires Lines(x) == done + Lines(y) && Unfinished(x) == Unfinished(y)
    ensures Lines(x + [k]) == done + Lines(y + [k]) && Unfinished(x + [k]) == Unfinished(y + [k])
  {
    LinesSnoc(x, k);
    LinesSnoc(y, k);
    SameUnfinished(x, y, k);
    Associative(done, Lines(y), Finishes(Unfinished(y), k));
  }

  /** Line editing can go on from the unfinished line alone. */
  lemma {:induction false} Resumed(before: seq<Key>, ks: seq<Key>)
    ensures var anew := Plain(Unfinished(before)) + ks;
            Lines(before + ks) == Lines(before) + Lines(anew) && Unfinished(before + ks) == Unfinished(anew)
    decreases |ks|
  {
    var line := Plain(Unfinished(before));
    if ks == [] {
      PlainIsUnfinished(Unfinished(before));
      assert before + ks == before && line + ks == line && Lines(before) + [] == Lines(before);
    } else {
      var init, k := ks[..|ks| - 1], ks[|ks| - 1];
      Resumed(before, init);
      ResumedSnoc(Lines(before), before + init, line + init, k);
      assert init + [k] == ks;
      Associative(before, init, [k]);
      Associative(line, init, [k]);
    }
  }

  lemma CanonicalActKeeps(t: Termios, p: Pty, a: SlaveAction)
    requires t.icanon
    ensures var (q, got) := Act(t, p, a);
            var ks := Plain(p.cooked) + TypedBy(t, a);
            got + Flatten(q.mosi) == Flatten(p.mosi) + Flatten(Lines(ks)) && q.cooked == Unfinished(ks)
  {
    if a.TypeIn? {
      TypedMatchesLines(t, p, a.bytes);
      FlattenConcat(p.mosi, Lines(Plain(p.cooked) + Keys(t, a.bytes)));
    } else {
      PlainIsUnfinished(p.cooked);
      assert Plain(p.cooked) + [] == Plain(p.cooked);
      if a.ReadSome? { CanonicalReadTakes(t, p, a.size, a.nonblock); }
    }
  }

  /** A canonical read takes from the queue and leaves the unfinished line alone. */
  lemma CanonicalReadTakes(t: Termios, p: Pty, size: nat, nonblock: bool)
    requires t.icanon
    ensures var (q, r) := SlaveRead(t, p, size, nonblock);
            q.cooked == p.cooked && (if r.Ok? then r.value else []) + Flatten(q.mosi) == Flatten(p.mosi)
  {
    if p.mosi != [] {
      var packet, n := p.mosi[0], Take(p.mosi[0], size);
      FlattenOne(packet[n..]);
      FlattenConcat(if n < |packet| then [packet[n..]] else [], p.mosi[1..]);
      assert packet == packet[..n] + packet[n..];
    }
  }

  /** Two stretches of a run, from `a` over `b` to `c`, deliver one after the other. */
  lemma Delivered(got: Bytes, more: Bytes, a: seq<Bytes>, b: seq<Bytes>, c: seq<Bytes>, first: seq<Key>, rest: seq<Key>)
    requires got + Flatten(b) == Flatten(a) + Flatten(Lines(first))
    requires more + Flatten(c) == Flatten(b) + Flatten(Lines(Plain(Unfinished(first)) + rest))
    ensures got + more + Flatten(c) == Flatten(a) + Flatten(Lines(first + rest))
    ensures Unfinished(Plain(Unfinished(first)) + rest) == Unfinished(first + rest)
  {
    var now, later := Lines(first), Lines(Plain(Unfinished(first)) + rest);
    Resumed(first, rest);
    FlattenConcat(now, later);
    Associative(got, more, Flatten(c));
    Associative(got, Flatten(b), Flatten(later));
    Associative(Flatten(a), Flatten(now), Flatten(later));
  }

  /** For every sequence of inputs, updates, clock ticks and slave reads in canonical mode:
      delivered bytes, then queued packets, are what was queued followed by the finished lines
      of everything typed, and the rest is the unfinished line. */
  lemma {:induction false} LinesAreDelivered(p: Pty, steps: seq<(Termios, SlaveAction)>)
    requires forall i :: 0 <= i < |steps| ==> steps[i].0.icanon
    ensures var (q, got) := ActAll(p, steps);
            var ks := Plain(p.cooked) + KeysTyped(steps);
            got + Flatten(q.mosi) == Flatten(p.mosi) + Flatten(Lines(ks)) && q.cooked == Unfinished(ks)
    decreases |steps|
  {
    if steps == [] {
      PlainIsUnfinished(p.cooked);
      assert Plain(p.cooked) + [] == Plain(p.cooked);
    } else {
      var (t, a) := steps[0];
      var (q, got) := Act(t, p, a);
      var first, rest := Plain(p.cooked) + TypedBy(t, a), KeysTyped(steps[1..]);
      CanonicalActKeeps(t, p, a);
      LinesAreDelivered(q, steps[1..]);
      var (last, more) := ActAll(q, steps[1..]);
      Delivered(got, more, p.mosi, q.mosi, last.mosi, first, rest);
      Associative(Plain(p.cooked), TypedBy(t, a), rest);
    }
  }

  // ---------------------------------------------------------------- reassembly at the master

  /** The payload of a packet, every byte with the packet's header. */
  function Tagged(packet: Bytes): (r: seq<(Byte, Byte)>)
  {
    if packet == [] then [] else seq(|packet| - 1, i requires 0 <= i < |packet| - 1 => (packet[0], packet[i + 1]))
  }

  function TaggedAll(packets: seq<Bytes>): (r: seq<(Byte, Byte)>)
  {
    if packets == [] then [] else Tagged(packets[0]) + TaggedAll(packets[1..])
  }

  ghost predicate Headed(packets: seq<Bytes>)
  {
    forall i :: 0 <= i < |packets| ==> packets[i] != []
  }

  lemma {:induction false} TaggedConcat(a: seq<Bytes>, b: seq<Bytes>)
    ensures TaggedAll(a + b) == TaggedAll(a) + TaggedAll(b)
    decreases |a|
  {
    if a == [] {
      assert a + b == b;
    } else {
      assert (a + b)[1..] == a[1..] + b;
      TaggedConcat(a[1..], b);
    }
  }

  lemma TaggedOne(a: Bytes)
    ensures TaggedAll([a]) == Tagged(a)
  {
    assert [a][1..] == [];
  }

  /** Splitting a packet at `n >= 1` under its header splits its tagged payload. */
  lemma SplitPacket(packet: Bytes, n: nat)
    requires 1 <= n < |packet|
    ensures Tagged(packet[..n]) + Tagged([packet[0]] + packet[n..]) == Tagged(packet)
  {
  }

  lemma MasterReadKeeps(p: Pty, size: nat, nonblock: bool)
    requires Headed(p.miso) && size >= 1
    ensures var (q, r) := MasterRead(p, size, nonblock);
            && Headed(q.miso) && (r.Ok? ==> r.value != [])
            && TaggedAll(p.miso) == (if r.Ok? then Tagged(r.value) else []) + TaggedAll(q.miso)
  {
    if p.miso != [] {
      var packet, n := p.miso[0], Take(p.miso[0], size);
      if n < |packet| {
        SplitPacket(packet, n);
        var rest := [packet[0]] + packet[n..];
        TaggedConcat([rest], p.miso[1..]);
        TaggedOne(rest);
      } else {
        assert packet[..n] == packet && [] + p.miso[1..] == p.miso[1..];
      }
    }
  }

  /** An empty read of a non-empty queue repeats the header inside the payload, so payload
      survives a read exactly when the buffer is not empty or nothing is queued. */
  lemma EmptyReadRepeatsHeader(p: Pty, size: nat, nonblock: bool)
    requires Headed(p.miso)
    ensures var (q, r) := MasterRead(p, size, nonblock);
            (if r.Ok? then Tagged(r.value) else []) + TaggedAll(q.miso) == TaggedAll(p.miso)
            <==> size >= 1 || p.miso == []
  {
    if size >= 1 {
      MasterReadKeeps(p, size, nonblock);
    } else if p.miso != [] {
      var packet := p.miso[0];
      var rest := [packet[0]] + packet[0..];
      TaggedConcat([rest], p.miso[1..]);
      TaggedOne(rest);
      assert |Tagged(rest)| == |Tagged(packet)| + 1;
    }
  }

  function Total(packets: seq<Bytes>): (n: nat)
  {
    if packets == [] then 0 else |packets[0]| + Total(packets[1..])
  }

  lemma {:induction false} TotalConcat(a: seq<Bytes>, b: seq<Bytes>)
    ensures Total(a + b) == Total(a) + Total(b)
    decreases |a|
  {
    if a == [] {
      assert a + b == b;
    } else {
      assert (a + b)[1..] == a[1..] + b;
      TotalConcat(a[1..], b);
    }
  }

  /** A buffer of two bytes or more always makes progress. */
  lemma MasterReadProgress(p: Pty, size: nat, nonblock: bool)
    requires Headed(p.miso) && p.miso != [] && size >= 2
    ensures Total(MasterRead(p, size, nonblock).0.miso) < Total(p.miso)
  {
    var packet, n := p.miso[0], Take(p.miso[0], size);
    if n < |packet| {
      TotalConcat([[packet[0]] + packet[n..]], p.miso[1..]);
      assert [[packet[0]] + packet[n..]][1..] == [];
    } else {
      assert [] + p.miso[1..] == p.miso[1..];
    }
  }

  datatype MasterAction = WriteOut(t: Termios, bytes: Bytes) | SyncOut | ReadIn(size: nat, nonblock: bool)

  /** The packet an action produces, with its tagged payload. */
  function Produced(a: MasterAction): (r: seq<(Byte, Byte)>)
  {
    match a
    case WriteOut(t, bytes) => Tagged([0] + PostProcess(t, bytes))
    case _ => []
  }

  function MasterStep(p: Pty, a: MasterAction): (r: (Pty, Bytes))
  {
    match a
    case WriteOut(t, bytes) => (Output(t, p, bytes), [])
    case SyncOut => (Sync(p), [])
    case ReadIn(size, nonblock) =>
      var (q, res) := MasterRead(p, size, nonblock);
      (q, if res.Ok? then res.value else [])
  }

  function ProducedAll(actions: seq<MasterAction>): (r: seq<(Byte, Byte)>)
  {
    if actions == [] then [] else Produced(actions[0]) + ProducedAll(actions[1..])
  }

  /** The terminal after the actions, and the chunks the master read. */
  function MasterRun(p: Pty, actions: seq<MasterAction>): (r: (Pty, seq<Bytes>))
    decreases |actions|
  {
    if actions == [] then (p, []) else
    var (q, chunk) := MasterStep(p, actions[0]);
    var (last, more) := MasterRun(q, actions[1..]);
    (last, [chunk] + more)
  }

  lemma MasterStepKeeps(p: Pty, a: MasterAction)
    requires Headed(p.miso) && (a.ReadIn? ==> a.size >= 1)
    ensures var (q, chunk) := MasterStep(p, a);
            Headed(q.miso) && Tagged(chunk) + TaggedAll(q.miso) == TaggedAll(p.miso) + Produced(a)
  {
    match a {
      case WriteOut(t, bytes) =>
        TaggedConcat(p.miso, [[0] + PostProcess(t, bytes)]);
        TaggedOne([0] + PostProcess(t, bytes));
      case SyncOut =>
        TaggedConcat(p.miso, [[1]]);
        TaggedOne([1]);
      case ReadIn(size, nonblock) => MasterReadKeeps(p, size, nonblock);
    }
  }

  /** For every mix of writes, syncs and reads with non-empty buffers: the chunks read, stripped
      of their header byte, followed by what is still queued, are exactly the post-processed
      output in order, each byte under its packet's header. */
  lemma {:induction false} OutputIsReassembled(p: Pty, actions: seq<MasterAction>)
    requires Headed(p.miso) && forall i :: 0 <= i < |actions| && actions[i].ReadIn? ==> actions[i].size >= 1
    ensures var (q, chunks) := MasterRun(p, actions);
            Headed(q.miso) && TaggedAll(chunks) + TaggedAll(q.miso) == TaggedAll(p.miso) + ProducedAll(actions)
    decreases |actions|
  {
    if actions != [] {
      var (q, chunk) := MasterStep(p, actions[0]);
      MasterStepKeeps(p, actions[0]);
      OutputIsReassembled(q, actions[1..]);
      var (last, more) := MasterRun(q, actions[1..]);
      assert ([chunk] + more)[1..] == more;
      Regroup(Tagged(chunk), TaggedAll(more), TaggedAll(last.miso), TaggedAll(q.miso), TaggedAll(p.miso),
              Produced(actions[0]), ProducedAll(actions[1..]));
    } else {
      assert [] + TaggedAll(p.miso) == TaggedAll(p.miso) + [];
    }
  }

  lemma Regroup(chunk: seq<(Byte, Byte)>, more: seq<(Byte, Byte)>, left: seq<(Byte, Byte)>, middle: seq<(Byte, Byte)>,
                before: seq<(Byte, Byte)>, one: seq<(Byte, Byte)>, rest: seq<(Byte, Byte)>)
    requires chunk + middle == before + one && more + left == middle + rest
    ensures (chunk + more) + left == before + (one + rest)
  {
    assert (chunk + more) + left == chunk + (more + left);
    assert chunk + (middle + rest) == (chunk + middle) + rest;
    assert (before + one) + rest == before + (one + rest);
  }

  /** Drops the carriage return in front of each newline. */
  function Undo(bytes: Bytes): (r: Bytes)
  {
    if bytes == [] then []
    else if |bytes| >= 2 && bytes[0] == CR && bytes[1] == NL then [NL] + Undo(bytes[2..])
    else [bytes[0]] + Undo(bytes[1..])
  }

  /** Post-processing loses nothing: without newline translation the text is unchanged, with it
      dropping the inserted carriage returns gives the text back, even if the text has its own. */
  lemma {:induction false} PostProcessingIsInvertible(t: Termios, bytes: Bytes)
    ensures if t.opost && t.onlcr then Undo(PostProcess(t, bytes)) == bytes else PostProcess(t, bytes) == bytes
    decreases |bytes|
  {
    if bytes != [] {
      PostProcessingIsInvertible(t, bytes[1..]);
      var rest := PostProcess(t, bytes[1..]);
      if t.opost && t.onlcr {
        assert rest != [] ==> rest[0] != NL;
        if bytes[0] == NL {
          assert ([CR, NL] + rest)[2..] == rest;
        } else {
          assert ([bytes[0]] + rest)[1..] == rest;
        }
      }
      assert [bytes[0]] + bytes[1..] == bytes;
    }
  }
}

/** The terminal as it runs: one object updated byte by byte, read into caller buffers. */
module PtyObject {
  import opened Wrappers
  import opened PtyModel
  import P = PtyModel

  class Terminal {
    var termios: Termios
    var cooked: Bytes
    var mosi: seq<Bytes>
    var miso: seq<Bytes>
    var clock: U64
    var timer: Option<U64>
    var hasGroup: bool
    var signals: seq<nat>

    constructor (termios: Termios)
      ensures Model() == Pty([], [], [], 0, None, false, []) && this.termios == termios
    {
      this.termios := termios;
      cooked, mosi, miso, clock, timer, hasGroup, signals := [], [], [], 0, None, false, [];
    }

    ghost function Model(): (p: Pty)
      reads this
    {
      Pty(cooked, mosi, miso, clock, timer, hasGroup, signals)
    }

    method Output(bytes: Bytes)
      modifies this
      ensures Model() == old(P.Output(termios, Model(), bytes)) && termios == old(termios)
    {
      var packet: Bytes := [0];
      ghost var all := [0] + PostProcess(termios, bytes);
      assert bytes[0..] == bytes;
      for i := 0 to |bytes|
        invariant packet + PostProcess(termios, bytes[i..]) == all
        invariant Model() == old(Model()) && termios == old(termios)
      {
        assert bytes[i..][1..] == bytes[i + 1..];
        if termios.opost && termios.onlcr && bytes[i] == NL {
          packet := packet + [CR];
        }
        packet := packet + [bytes[i]];
      }
      assert packet == all;
      miso := miso + [packet];
    }

    method EndLine(c: Byte, echoed: bool)
      modifies this
      ensures Model() == old(Apply(termios, Model(), EndOfLine(c, echoed))) && termios == old(termios)
    {
      if echoed { Output([c]); }
      cooked := cooked + [c];
      mosi := mosi + [cooked];
      cooked := [];
    }

    /** The canonical rules, one after the other; a rule that applies consumes the byte. */
    method InputCanonical(byte: Byte) returns (b: Byte)
      modifies this
      ensures termios == old(termios)
      ensures var k := CanonicalRule(termios, byte);
              && Model() == old(if k.Some? then Apply(termios, Model(), k.value) else Model())
              && b == if k.Some? then 0 else byte
    {
      b := byte;
      var t, cc := termios, termios.cc;
      if !t.icanon { return; }
      if b == NL {
        EndLine(b, t.echo || t.echonl);
        b := 0;
      }
      if Is(b, cc.eof) {
        mosi := mosi + [cooked];
        cooked := [];
        b := 0;
      }
      if Is(b, cc.eol) {
        EndLine(b, t.echo);
        b := 0;
      }
      if Is(b, cc.eol2) {
        EndLine(b, t.echo);
        b := 0;
      }
      if Is(b, cc.erase) {
        if cooked != [] {
          cooked := cooked[..|cooked| - 1];
          if t.echoe { Output([8, 32, 8]); }
        }
        b := 0;
      }
      if Is(b, cc.werase) && t.iexten { b := 0; }
      if Is(b, cc.kill) { b := 0; }
      if Is(b, cc.reprint) && t.iexten { b := 0; }
    }

    method InputSignals(byte: Byte) returns (b: Byte)
      modifies this
      ensures termios == old(termios)
      ensures var k := SignalRule(termios, byte);
              && Model() == old(if k.Some? then Apply(termios, Model(), k.value) else Model())
              && b == if k.Some? then 0 else byte
    {
      b := byte;
      var t, cc := termios, termios.cc;
      if t.isig {
        if Is(b, cc.intr) {
          if hasGroup { signals := signals + [SIGINT]; }
          b := 0;
        }
        if Is(b, cc.quit) {
          if hasGroup { signals := signals + [SIGQUIT]; }
          b := 0;
        }
        if Is(b, cc.susp) {
          if hasGroup { signals := signals + [SIGTSTP]; }
          b := 0;
        }
      }
      if t.ixon {
        if Is(b, cc.start) { b := 0; }
        if Is(b, cc.stop) { b := 0; }
      }
    }

    method InputByte(byte: Byte)
      modifies this
      ensures Model() == old(Apply(termios, Model(), Classify(termios, byte))) && termios == old(termios)
    {
      var b, t := byte, termios;
      if b == NL {
        if t.inlcr { b := CR; }
      } else if b == CR {
        if t.igncr { b := 0; } else if t.icrnl { b := NL; }
      }
      b := InputCanonical(b);
      b := InputSignals(b);
      if Is(b, t.cc.lnext) && t.iexten { b := 0; }
      if Is(b, t.cc.discard) && t.iexten { b := 0; }
      if b != 0 {
        if t.echo { Output([b]); }
        timer := Some(clock);
        cooked := cooked + [b];
      }
    }

    method Input(bytes: Bytes)
      modifies this
      ensures Model() == old(P.Input(termios, Model(), bytes)) && termios == old(termios)
    {
      assert bytes[0..] == bytes;
      for i := 0 to |bytes|
        invariant Typed(termios, Model(), bytes[i..]) == old(Typed(termios, Model(), bytes)) && termios == old(termios)
      {
        assert bytes[i..][1..] == bytes[i + 1..];
        InputByte(bytes[i]);
      }
      Update();
    }

    method Flush()
      modifies this
      ensures Model() == old(P.Flush(Model())) && termios == old(termios)
    {
      mosi := mosi + [cooked];
      cooked := [];
    }

    method Update()
      modifies this
      ensures Model() == old(P.Update(termios, Model())) && termios == old(termios)
    {
      var cc := termios.cc;
      if termios.icanon { return; }
      if cc.time == 0 {
        if cc.min == 0 {
          if mosi == [] { Flush(); }
        } else if |cooked| >= cc.min {
          Flush();
        }
      } else if cc.min == 0 {
        if cooked != [] {
          Flush();
        } else if timer.Some? {
          if clock >= (timer.value + cc.time) % 0x1_0000_0000_0000_0000 {
            timer := None;
            if mosi == [] { Flush(); }
          }
        } else {
          timer := Some(clock);
        }
      } else if |cooked| >= cc.min {
        Flush();
      } else if cooked != [] && timer.Some? {
        if clock >= (timer.value + cc.time) % 0x1_0000_0000_0000_0000 {
          timer := None;
          Flush();
        }
      }
    }

    method Timeout(count: U64)
      modifies this
      ensures Model() == old(P.Timeout(termios, Model(), count)) && termios == old(termios)
    {
      if clock != count {
        clock := count;
        Update();
      }
    }

    /** Copies the front of a packet into the buffer. */
    method Copy(packet: Bytes, buf: array<Byte>) returns (n: nat)
      modifies buf
      ensures n == Take(packet, buf.Length) && buf[..n] == packet[..n] && buf[n..] == old(buf[n..])
    {
      n := 0;
      while n < buf.Length && n < |packet|
        invariant n <= buf.Length && n <= |packet| && buf[..n] == packet[..n] && buf[n..] == old(buf[n..])
      {
        buf[n] := packet[n];
        n := n + 1;
      }
    }

    method SlaveRead(buf: array<Byte>, nonblock: bool) returns (r: Result<nat>)
      modifies this, buf
      ensures termios == old(termios)
      ensures var (p, res) := old(P.SlaveRead(termios, Model(), buf.Length, nonblock));
              && Model() == p
              && match res
                 case Err(e) => r == Err(e) && buf[..] == old(buf[..])
                 case Ok(bytes) => r == Ok(|bytes|) && buf[..|bytes|] == bytes && buf[|bytes|..] == old(buf[|bytes|..])
    {
      Update();
      if mosi == [] { return Err(if nonblock then EAGAIN else EWOULDBLOCK); }
      var packet := mosi[0];
      mosi := mosi[1..];
      var n := Copy(packet, buf);
      if n < |packet| { mosi := [packet[n..]] + mosi; }
      return Ok(n);
    }

    method MasterRead(buf: array<Byte>, nonblock: bool) returns (r: Result<nat>)
      modifies this, buf
      ensures termios == old(termios)
      ensures var (p, res) := old(P.MasterRead(Model(), buf.Length, nonblock));
              && Model() == p
              && match res
                 case Err(e) => r == Err(e) && buf[..] == old(buf[..])
                 case Ok(bytes) => r == Ok(|bytes|) && buf[..|bytes|] == bytes && buf[|bytes|..] == old(buf[|bytes|..])
    {
      if miso == [] { return Err(if nonblock then EAGAIN else EWOULDBLOCK); }
      var packet := miso[0];
      miso := miso[1..];
      var n := Copy(packet, buf);
      if n < |packet| { miso := [[packet[0]] + packet[n..]] + miso; }
      return Ok(n);
    }
  }
}
