/** What paths with dots mean, and what creating and removing do to the paths that resolve. */
module RamFsPaths {
  import opened Wrappers
  import opened RamFs
  import opened RamFsTheorems

  // ---------------------------------------------------------------- dots

  function WithoutDots(parts: seq<Name>): (r: seq<Name>)
  {
    if parts == [] then [] else (if Dots(parts[0]) then [] else [parts[0]]) + WithoutDots(parts[1..])
  }

  /** Every part of dots is followed by a part that is not. */
  ghost predicate DotsApart(parts: seq<Name>)
  {
    forall k :: 0 <= k < |parts| && Dots(parts[k]) ==> k + 1 < |parts| && !Dots(parts[k + 1])
  }

  lemma DotsApartTail(parts: seq<Name>)
    requires parts != []
    ensures DotsApart(parts) <==>
            (Dots(parts[0]) ==> |parts| > 1 && !Dots(parts[1])) && DotsApart(parts[1..])
  {
    var rest := parts[1..];
    if (Dots(parts[0]) ==> |parts| > 1 && !Dots(parts[1])) && DotsApart(rest) {
      forall k | 0 <= k < |parts| && Dots(parts[k]) ensures k + 1 < |parts| && !Dots(parts[k + 1]) {
        if k > 0 { assert rest[k - 1] == parts[k]; }
      }
    }
    if DotsApart(parts) {
      forall k | 0 <= k < |rest| && Dots(rest[k]) ensures k + 1 < |rest| && !Dots(rest[k + 1]) {
        assert rest[k] == parts[k + 1];
      }
    }
  }

  /** No entry is called "." or "..". */
  lemma NoDotEntry(fs: Fs, cur: Inode, x: Name)
    requires Inv(fs) && cur in fs.files && fs.files[cur].data.Directory? && Dots(x)
    ensures x !in fs.files[cur].data.entries
  {
    if x in fs.files[cur].data.entries { assert IsEntry(fs, cur, x, fs.files[cur].data.entries[x]); }
  }

  lemma RemoveAtJoint(done: seq<Name>, rest: seq<Name>)
    requires rest != []
    ensures RemoveAt(done + rest, |done|) == done + rest[1..]
  {
  }

  lemma PartAtJoint(done: seq<Name>, rest: seq<Name>)
    requires rest != []
    ensures (done + rest)[|done|] == rest[0]
  {
  }

  /** What the loop looks up after a part of dots is the part behind it. */
  lemma EditDots(done: seq<Name>, rest: seq<Name>)
    requires |rest| > 1 && Dots(rest[0])
    ensures var r := Edit(done + rest, |done|);
            && r.Some? && r.value.0[r.value.1] == rest[1]
            && (!Dots(rest[1]) ==> r == Some((done + rest[1..], |done|)))
  {
    PartAtJoint(done, rest);
    RemoveAtJoint(done, rest);
    PartAtJoint(done, rest[1..]);
    if done != [] { assert RemoveAt(done + rest[1..], |done| - 1)[|done| - 1] == (done + rest[1..])[|done|]; }
  }

  lemma EditPlain(done: seq<Name>, rest: seq<Name>)
    requires rest != [] && !Dots(rest[0])
    ensures Edit(done + rest, |done|) == Some((done + rest, |done|))
  {
    PartAtJoint(done, rest);
  }

  lemma SameEdit(fs: Fs, p: seq<Name>, q: seq<Name>, k: nat, cur: Inode)
    requires cur in fs.files && k < |p| && k < |q| && Edit(p, k) == Edit(q, k)
    ensures ResolveFrom(fs, p, k, cur, 0, 0) == ResolveFrom(fs, q, k, cur, 0, 0)
  {
    OneTurn(fs, p, k, cur, 0, 0);
    OneTurn(fs, q, k, cur, 0, 0);
  }

  /** A single part of dots is skipped. */
  lemma DotsSkipped(fs: Fs, done: seq<Name>, rest: seq<Name>, cur: Inode)
    requires cur in fs.files && |rest| > 1 && Dots(rest[0]) && !Dots(rest[1])
    ensures ResolveFrom(fs, done + rest, |done|, cur, 0, 0) == ResolveFrom(fs, done + rest[1..], |done|, cur, 0, 0)
  {
    EditDots(done, rest);
    EditPlain(done, rest[1..]);
    SameEdit(fs, done + rest, done + rest[1..], |done|, cur);
  }

  /** Two parts of dots in a row lead nowhere: the second is looked up as a name. */
  lemma TwoDotsFail(fs: Fs, done: seq<Name>, rest: seq<Name>, cur: Inode)
    requires Inv(fs) && cur in fs.files && rest != [] && Dots(rest[0]) && (|rest| > 1 ==> Dots(rest[1]))
    ensures var r := ResolveFrom(fs, done + rest, |done|, cur, 0, 0);
            r == Panic || r.value.Err?
  {
    if |rest| > 1 {
      EditDots(done, rest);
      if fs.files[cur].data.Directory? { NoDotEntry(fs, cur, rest[1]); }
    } else {
      PartAtJoint(done, rest);
      RemoveAtJoint(done, rest);
    }
  }

  lemma {:induction false} ResolveFromExactly(fs: Fs, done: seq<Name>, rest: seq<Name>, cur: Inode, i: Inode)
    requires Inv(fs) && Walk(fs, done) == Some(cur)
    ensures ResolveFrom(fs, done + rest, |done|, cur, 0, 0) == Done(Ok(i)) <==>
            DotsApart(rest) && Walk(fs, done + WithoutDots(rest)) == Some(i)
    decreases |rest|
  {
    if rest == [] {
      assert done + WithoutDots(rest) == done;
    } else {
      DotsApartTail(rest);
      if !Dots(rest[0]) {
        PlainStep(fs, done, rest, cur, i);
      } else if |rest| > 1 && !Dots(rest[1]) {
        DotsStep(fs, done, rest, cur, i);
      } else {
        TwoDotsFail(fs, done, rest, cur);
      }
    }
  }

  lemma PlainPart(fs: Fs, done: seq<Name>, x: Name, rest: seq<Name>, cur: Inode)
    requires Walk(fs, done) == Some(cur) && !Dots(x)
    ensures var next, r := Walk(fs, done + [x]), ResolveFrom(fs, done + ([x] + rest), |done|, cur, 0, 0);
            if next.Some? then r == ResolveFrom(fs, done + ([x] + rest), |done| + 1, next.value, 0, 0)
            else r.Done? && r.value.Err?
  {
    EditPlain(done, [x] + rest);
    PartAtJoint(done, [x] + rest);
    assert (done + [x])[..|done|] == done;
  }

  lemma Regroup(a: seq<Name>, x: Name, b: seq<Name>)
    ensures a + ([x] + b) == a + [x] + b
  {
  }

  lemma PlainSplit(done: seq<Name>, rest: seq<Name>)
    requires rest != [] && !Dots(rest[0])
    ensures done + rest == done + ([rest[0]] + rest[1..]) == done + [rest[0]] + rest[1..]
    ensures done + WithoutDots(rest) == done + [rest[0]] + WithoutDots(rest[1..])
    ensures DotsApart(rest) <==> DotsApart(rest[1..])
  {
    DotsApartTail(rest);
    assert [rest[0]] + rest[1..] == rest;
    Regroup(done, rest[0], rest[1..]);
    Regroup(done, rest[0], WithoutDots(rest[1..]));
  }

  lemma DeadEnd(fs: Fs, names: seq<Name>, more: seq<Name>)
    requires Walk(fs, names).None?
    ensures Walk(fs, names + more).None?
  {
    assert (names + more)[..|names|] == names;
    WalkStops(fs, names + more, |names|);
  }

  lemma PlainStep(fs: Fs, done: seq<Name>, rest: seq<Name>, cur: Inode, i: Inode)
    requires Inv(fs) && Walk(fs, done) == Some(cur) && rest != [] && !Dots(rest[0])
    ensures ResolveFrom(fs, done + rest, |done|, cur, 0, 0) == Done(Ok(i)) <==>
            DotsApart(rest) && Walk(fs, done + WithoutDots(rest)) == Some(i)
    decreases |rest|, 0
  {
    PlainSplit(done, rest);
    PlainPart(fs, done, rest[0], rest[1..], cur);
    var more := done + [rest[0]];
    if Walk(fs, more).Some? {
      ResolveFromExactly(fs, more, rest[1..], Walk(fs, more).value, i);
    } else {
      DeadEnd(fs, more, WithoutDots(rest[1..]));
    }
  }

  lemma DotsStep(fs: Fs, done: seq<Name>, rest: seq<Name>, cur: Inode, i: Inode)
    requires Inv(fs) && Walk(fs, done) == Some(cur) && |rest| > 1 && Dots(rest[0]) && !Dots(rest[1])
    ensures ResolveFrom(fs, done + rest, |done|, cur, 0, 0) == Done(Ok(i)) <==>
            DotsApart(rest) && Walk(fs, done + WithoutDots(rest)) == Some(i)
    decreases |rest|, 0
  {
    DotsApartTail(rest);
    DotsSkipped(fs, done, rest, cur);
    DotsDropped(rest);
    ResolveFromExactly(fs, done, rest[1..], cur, i);
  }

  lemma DotsDropped(rest: seq<Name>)
    requires rest != [] && Dots(rest[0])
    ensures WithoutDots(rest) == WithoutDots(rest[1..])
  {
  }

  /** Root's resolving succeeds with `i` if and only if no part of dots is last or followed by
      another one, and following the other names from the root leads to `i`. In particular ".."
      is skipped like ".": it does not go up. */
  lemma ResolveExactly(fs: Fs, parts: seq<Name>, i: Inode)
    requires Inv(fs)
    ensures Resolve(fs, parts, 0, 0) == Done(Ok(i)) <==> DotsApart(parts) && Walk(fs, WithoutDots(parts)) == Some(i)
  {
    assert [] + parts == parts && [] + WithoutDots(parts) == WithoutDots(parts);
    if ROOT in fs.files {
      ResolveFromExactly(fs, [], parts, ROOT, i);
    } else {
      assert WithoutDots(parts)[..0] == [];
      WalkStops(fs, WithoutDots(parts), 0);
    }
  }

  /** Whoever resolves a path is led where following its names leads. */
  lemma ResolvedWalks(fs: Fs, parts: seq<Name>, uid: nat, gid: nat, i: Inode)
    requires Inv(fs) && Resolve(fs, parts, uid, gid) == Done(Ok(i))
    ensures DotsApart(parts) && Walk(fs, WithoutDots(parts)) == Some(i)
  {
    RootSeesAll(fs, parts, 0, ROOT, uid, gid);
    ResolveExactly(fs, parts, i);
  }

  /** In every run: what resolves to an inode is, without its dots, the inode's printed path. */
  lemma ResolvedPathsPrint(actions: seq<Action>, parts: seq<Name>, uid: nat, gid: nat, i: Inode)
    requires Run(actions).Done? && Resolve(Run(actions).value, parts, uid, gid) == Done(Ok(i))
    ensures IsPath(Run(actions).value, i, WithoutDots(parts))
  {
    RunKeeps(actions);
    ResolvedWalks(Run(actions).value, parts, uid, gid, i);
    WalkIsPath(Run(actions).value, WithoutDots(parts), i);
  }

  lemma {:induction false} WithoutDotsSnoc(parts: seq<Name>, x: Name)
    ensures WithoutDots(parts + [x]) == WithoutDots(parts) + if Dots(x) then [] else [x]
    decreases |parts|
  {
    if parts == [] {
      assert parts + [x] == [x] && [x][1..] == [];
    } else {
      assert (parts + [x])[1..] == parts[1..] + [x];
      WithoutDotsSnoc(parts[1..], x);
    }
  }

  lemma DotsApartSnoc(parts: seq<Name>, x: Name)
    requires DotsApart(parts) && !Dots(x)
    ensures DotsApart(parts + [x])
  {
    forall k | 0 <= k < |parts + [x]| && Dots((parts + [x])[k])
      ensures k + 1 < |parts + [x]| && !Dots((parts + [x])[k + 1])
    {
      assert (parts + [x])[k] == parts[k] && parts[k + 1] == (parts + [x])[k + 1];
    }
  }

  /** An inode has one path. */
  lemma {:induction false} WalkInjective(fs: Fs, a: seq<Name>, b: seq<Name>, i: Inode)
    requires Inv(fs) && Walk(fs, a) == Some(i) && Walk(fs, b) == Some(i)
    ensures a == b
    decreases |a|
  {
    WalkIsPath(fs, a, i);
    WalkIsPath(fs, b, i);
    if i != ROOT {
      var d := fs.files[i].parent;
      WalkIsPath(fs, a[..|a| - 1], d);
      WalkIsPath(fs, b[..|b| - 1], d);
      WalkInjective(fs, a[..|a| - 1], b[..|b| - 1], d);
      assert a == a[..|a| - 1] + [a[|a| - 1]] && b == b[..|b| - 1] + [b[|b| - 1]];
    }
  }

  // ---------------------------------------------------------------- creating

  /** `fs'` is `fs` with the fresh inode `i`, without entries, entered in `d` as `n`. */
  ghost predicate Adds(fs: Fs, fs': Fs, d: Inode, n: Name, i: Inode)
  {
    && d in fs.files && d != i && i !in fs.files && fs'.files.Keys == fs.files.Keys + {i}
    && (fs'.files[i].data == Regular || fs'.files[i].data == Directory(map[]))
    && fs.files[d].data.Directory? && fs'.files[d].data == Directory(fs.files[d].data.entries[n := i])
    && forall j :: j in fs.files && j != d ==> fs'.files[j].data == fs.files[j].data
  }

  lemma {:induction false} WalkAdds(fs: Fs, fs': Fs, dir: seq<Name>, d: Inode, n: Name, i: Inode, other: seq<Name>)
    requires Inv(fs) && Adds(fs, fs', d, n, i) && Walk(fs, dir) == Some(d) && Walk(fs, dir + [n]) == None
    requires forall e: Inode, x :: !IsEntry(fs, e, x, i)
    ensures Walk(fs', other) == if other == dir + [n] then Some(i) else Walk(fs, other)
    decreases |other|
  {
    if other == [] {
      WalkIsPath(fs, [], ROOT);
      assert ROOT in fs.files by { RootOnTheWay(fs, dir); }
    } else {
      var init, x := other[..|other| - 1], other[|other| - 1];
      assert other == init + [x];
      WalkAdds(fs, fs', dir, d, n, i, init);
      if init != dir + [n] && Walk(fs, init).Some? {
        var e := Walk(fs, init).value;
        if e == d { WalkInjective(fs, init, dir, d); }
        if fs.files[e].data.Directory? && x in fs.files[e].data.entries {
          assert IsEntry(fs, e, x, fs.files[e].data.entries[x]);
        }
      }
    }
  }

  lemma {:induction false} RootOnTheWay(fs: Fs, names: seq<Name>)
    requires Walk(fs, names).Some?
    ensures ROOT in fs.files
    decreases |names|
  {
    if names != [] { RootOnTheWay(fs, names[..|names| - 1]); }
  }

  lemma CreateAdds(fs: Fs, parts: seq<Name>, flags: Flags, uid: nat, gid: nat)
    requires Inv(fs) && Create(fs, parts, flags, uid, gid).Done? && Create(fs, parts, flags, uid, gid).value.1.Ok?
    ensures parts != [] && Resolve(fs, parts[..|parts| - 1], uid, gid).Done?
    ensures Resolve(fs, parts[..|parts| - 1], uid, gid).value.Ok?
    ensures var d := Resolve(fs, parts[..|parts| - 1], uid, gid).value.value;
            var (fs', r) := Create(fs, parts, flags, uid, gid).value;
            Adds(fs, fs', d, parts[|parts| - 1], r.value) && r.value == fs.last + 1
  {
    ResolvedExists(fs, parts[..|parts| - 1], 0, ROOT, uid, gid);
  }

  lemma MissingWalk(fs: Fs, parts: seq<Name>)
    requires Inv(fs) && Resolve(fs, parts, 0, 0).Done? && Resolve(fs, parts, 0, 0).value.Err? && DotsApart(parts)
    ensures Walk(fs, WithoutDots(parts)) == None
  {
    if Walk(fs, WithoutDots(parts)).Some? { ResolveExactly(fs, parts, Walk(fs, WithoutDots(parts)).value); }
  }

  /** The path of a missing file: its directory resolves, its name is no dots, and nothing is there. */
  lemma MissingPath(fs: Fs, parts: seq<Name>, uid: nat, gid: nat, d: Inode)
    requires Inv(fs) && parts != [] && (forall p :: p in parts ==> ProperName(p))
    requires Resolve(fs, parts, 0, 0).Done? && Resolve(fs, parts, 0, 0).value.Err?
    requires Resolve(fs, parts[..|parts| - 1], uid, gid) == Done(Ok(d)) && d in fs.files
    requires fs.files[d].data.Directory?
    ensures var dir, x := parts[..|parts| - 1], parts[|parts| - 1];
            && Walk(fs, WithoutDots(dir)) == Some(d) && WithoutDots(parts) == WithoutDots(dir) + [x]
            && DotsApart(parts) && Walk(fs, WithoutDots(parts)) == None
  {
    var dir, x := parts[..|parts| - 1], parts[|parts| - 1];
    ResolvedWalks(fs, dir, uid, gid, d);
    RootOnTheWay(fs, WithoutDots(dir));
    MissingNameIsValid(fs, parts, uid, gid);
    assert dir + [x] == parts;
    WithoutDotsSnoc(dir, x);
    DotsApartSnoc(dir, x);
    MissingWalk(fs, parts);
  }

  lemma CreateChangesOnePath(fs: Fs, parts: seq<Name>, flags: Flags, uid: nat, gid: nat, other: seq<Name>)
    requires Inv(fs) && (forall p :: p in parts ==> ProperName(p))
    requires Resolve(fs, parts, 0, 0).Done? && Resolve(fs, parts, 0, 0).value.Err?
    requires Create(fs, parts, flags, uid, gid).Done? && Create(fs, parts, flags, uid, gid).value.1.Ok?
    ensures var (fs', r) := Create(fs, parts, flags, uid, gid).value;
            && r.value !in fs.files && DotsApart(parts)
            && Walk(fs', other) == if other == WithoutDots(parts) then Some(r.value) else Walk(fs, other)
  {
    CreateAdds(fs, parts, flags, uid, gid);
    var dir, x := parts[..|parts| - 1], parts[|parts| - 1];
    var d := Resolve(fs, dir, uid, gid).value.value;
    var (fs', r) := Create(fs, parts, flags, uid, gid).value;
    MissingPath(fs, parts, uid, gid, d);
    WalkAdds(fs, fs', WithoutDots(dir), d, x, r.value, other);
  }

  /** In every run: a creating open makes its path, without dots, lead to the new inode, and
      changes no other path. */
  lemma CreatedIsFound(actions: seq<Action>, path: string, flags: Flags, uid: nat, gid: nat, other: seq<Name>)
    requires Run(actions).Done? && Resolve(Run(actions).value, Components(path), 0, 0).Done?
    requires Resolve(Run(actions).value, Components(path), 0, 0).value.Err?
    requires Create(Run(actions).value, Components(path), flags, uid, gid).Done?
    requires Create(Run(actions).value, Components(path), flags, uid, gid).value.1.Ok?
    ensures var fs, parts := Run(actions).value, Components(path);
            var (fs', r) := Create(fs, parts, flags, uid, gid).value;
            && r.value !in fs.files && Resolve(fs', parts, 0, 0) == Done(Ok(r.value))
            && Walk(fs', other) == if other == WithoutDots(parts) then Some(r.value) else Walk(fs, other)
  {
    RunKeeps(actions);
    var fs, parts := Run(actions).value, Components(path);
    ComponentsAreProper(path);
    CreateChangesOnePath(fs, parts, flags, uid, gid, other);
    CreateChangesOnePath(fs, parts, flags, uid, gid, WithoutDots(parts));
    CreateKeeps(fs, parts, flags, uid, gid);
    var (fs', r) := Create(fs, parts, flags, uid, gid).value;
    ResolveExactly(fs', parts, r.value);
  }

  // ---------------------------------------------------------------- removing

  /** `fs'` is `fs` without the entry `n` of `d`, and possibly without the inode `i` it led to. */
  ghost predicate Drops(fs: Fs, fs': Fs, d: Inode, n: Name, i: Inode)
  {
    && IsEntry(fs, d, n, i) && d in fs'.files && d != i
    && fs'.files.Keys <= fs.files.Keys && fs.files.Keys - {i} <= fs'.files.Keys
    && fs'.files[d].data == Directory(fs.files[d].data.entries - {n})
    && forall j :: j in fs'.files && j != d ==> fs'.files[j].data == fs.files[j].data
  }

  lemma {:induction false} WalkDrops(fs: Fs, fs': Fs, dir: seq<Name>, d: Inode, n: Name, i: Inode, other: seq<Name>)
    requires Inv(fs) && Drops(fs, fs', d, n, i) && Walk(fs, dir) == Some(d)
    ensures Walk(fs', other) == if dir + [n] <= other then None else Walk(fs, other)
    decreases |other|
  {
    if other == [] {
      RootOnTheWay(fs, dir);
      assert ROOT != i;
    } else {
      var init, x := other[..|other| - 1], other[|other| - 1];
      assert other == init + [x];
      WalkDrops(fs, fs', dir, d, n, i, init);
      if dir + [n] <= init {
        assert dir + [n] <= other;
      } else {
        assert dir + [n] <= other <==> dir + [n] == other;
        if Walk(fs, init).Some? {
          var e := Walk(fs, init).value;
          if e == d { WalkInjective(fs, init, dir, d); }
          DropsElsewhere(fs, fs', d, n, i, e, x);
        }
      }
    }
  }

  /** The entry is the only one that leads to `i`. */
  lemma DropsElsewhere(fs: Fs, fs': Fs, d: Inode, n: Name, i: Inode, e: Inode, x: Name)
    requires Inv(fs) && Drops(fs, fs', d, n, i) && e in fs.files && e in fs'.files
    ensures fs'.files[e].data.Directory? <==> fs.files[e].data.Directory?
    ensures fs.files[e].data.Directory? && (e != d || x != n) ==>
              && (x in fs'.files[e].data.entries <==> x in fs.files[e].data.entries)
              && (x in fs.files[e].data.entries ==>
                    && fs'.files[e].data.entries[x] == fs.files[e].data.entries[x]
                    && (fs.files[e].data.entries[x] in fs'.files <==> fs.files[e].data.entries[x] in fs.files))
    ensures e == d ==> n !in fs'.files[e].data.entries
  {
    if fs.files[e].data.Directory? && x in fs.files[e].data.entries {
      assert IsEntry(fs, e, x, fs.files[e].data.entries[x]);
      if fs.files[e].data.entries[x] == i && i in fs.files { assert fs.files[i].parent == e == d; }
    }
  }

  /** There is an entry to remove, and this user may write its directory. */
  ghost predicate Removable(fs: Fs, parts: seq<Name>, uid: nat, gid: nat)
  {
    && parts != [] && Resolve(fs, parts[..|parts| - 1], uid, gid).Done?
    && Resolve(fs, parts[..|parts| - 1], uid, gid).value.Ok?
    && var d := Resolve(fs, parts[..|parts| - 1], uid, gid).value.value;
    && d in fs.files && Perm(fs.files[d], uid, gid).w
    && fs.files[d].data.Directory? && parts[|parts| - 1] in fs.files[d].data.entries
  }

  /** What the entry leads to is there, of the kind asked for, and empty if a directory. */
  ghost predicate RemovalFits(fs: Fs, i: Inode, directory: bool)
  {
    i in fs.files && fs.files[i].data == if directory then Directory(map[]) else Regular
  }

  lemma DropInodeDrops(fs: Fs, fs1: Fs, d: Inode, n: Name, i: Inode, directory: bool)
    requires Drops(fs, fs1, d, n, i) && fs1.files.Keys == fs.files.Keys
    ensures Drops(fs, DropInode(fs1, d, i, directory).0, d, n, i)
    ensures DropInode(fs1, d, i, directory).1.Ok? <==> RemovalFits(fs, i, directory)
    ensures i in fs.files && fs.files[i].data.Directory? && !directory ==>
              DropInode(fs1, d, i, directory).1 == Err(EISDIR)
  {
  }

  lemma RemoveEntryDrops(fs: Fs, d: Inode, n: Name, uid: nat, gid: nat, directory: bool)
    requires Inv(fs) && d in fs.files && Perm(fs.files[d], uid, gid).w
    requires fs.files[d].data.Directory? && n in fs.files[d].data.entries
    ensures var i := fs.files[d].data.entries[n];
            var (fs', r) := RemoveEntry(fs, d, n, uid, gid, directory);
            && Drops(fs, fs', d, n, i) && (r.Ok? <==> RemovalFits(fs, i, directory))
            && (i in fs.files && fs.files[i].data.Directory? && !directory ==> r == Err(EISDIR))
  {
    var dir, i := fs.files[d], fs.files[d].data.entries[n];
    assert IsEntry(fs, d, n, i);
    var fs1 := fs.(files := fs.files[d := dir.(data := Directory(dir.data.entries - {n}))]);
    DropInodeDrops(fs, fs1, d, n, i, directory);
  }

  /** The path of an entry: its directory resolves and its name is no dots. */
  lemma EntryPath(fs: Fs, parts: seq<Name>, uid: nat, gid: nat, d: Inode)
    requires Inv(fs) && parts != [] && Resolve(fs, parts[..|parts| - 1], uid, gid) == Done(Ok(d)) && d in fs.files
    requires fs.files[d].data.Directory? && parts[|parts| - 1] in fs.files[d].data.entries
    ensures var dir, x := parts[..|parts| - 1], parts[|parts| - 1];
            Walk(fs, WithoutDots(dir)) == Some(d) && WithoutDots(parts) == WithoutDots(dir) + [x]
  {
    var dir, x := parts[..|parts| - 1], parts[|parts| - 1];
    ResolvedWalks(fs, dir, uid, gid, d);
    assert dir + [x] == parts && IsEntry(fs, d, x, fs.files[d].data.entries[x]);
    WithoutDotsSnoc(dir, x);
  }

  lemma DropsBelow(fs: Fs, fs': Fs, parts: seq<Name>, d: Inode, other: seq<Name>)
    requires Inv(fs) && parts != [] && d in fs.files && fs.files[d].data.Directory?
    requires parts[|parts| - 1] in fs.files[d].data.entries
    requires var dir, x := parts[..|parts| - 1], parts[|parts| - 1];
             Walk(fs, WithoutDots(dir)) == Some(d) && WithoutDots(parts) == WithoutDots(dir) + [x]
    requires Drops(fs, fs', d, parts[|parts| - 1], fs.files[d].data.entries[parts[|parts| - 1]])
    ensures Walk(fs', other) == if WithoutDots(parts) <= other then None else Walk(fs, other)
  {
    var dir, x := parts[..|parts| - 1], parts[|parts| - 1];
    WalkDrops(fs, fs', WithoutDots(dir), d, x, fs.files[d].data.entries[x], other);
  }

  lemma RemovalDrops(fs: Fs, parts: seq<Name>, uid: nat, gid: nat, directory: bool, other: seq<Name>)
    requires Inv(fs) && Removable(fs, parts, uid, gid)
    ensures var d := Resolve(fs, parts[..|parts| - 1], uid, gid).value.value;
            var i := fs.files[d].data.entries[parts[|parts| - 1]];
            var (fs', r) := RemoveEntry(fs, d, parts[|parts| - 1], uid, gid, directory);
            && Walk(fs', other) == (if WithoutDots(parts) <= other then None else Walk(fs, other))
            && (r.Ok? <==> RemovalFits(fs, i, directory))
            && (i in fs.files && fs.files[i].data.Directory? && !directory ==> r == Err(EISDIR))
  {
    var d := Resolve(fs, parts[..|parts| - 1], uid, gid).value.value;
    var x := parts[|parts| - 1];
    EntryPath(fs, parts, uid, gid, d);
    RemoveEntryDrops(fs, d, x, uid, gid, directory);
    DropsBelow(fs, RemoveEntry(fs, d, x, uid, gid, directory).0, parts, d, other);
  }

  lemma RemovalRefused(fs: Fs, parts: seq<Name>, uid: nat, gid: nat, directory: bool)
    requires RemoveDentry(fs, parts, uid, gid, directory).Done? && !Removable(fs, parts, uid, gid)
    ensures RemoveDentry(fs, parts, uid, gid, directory).value.0 == fs
    ensures RemoveDentry(fs, parts, uid, gid, directory).value.1.Err?
  {
  }

  /** In every run, a removal that finds an entry it may remove drops it whatever it answers: the
      path, without dots, and everything below it stop resolving, and every other path leads
      where it led. It answers Ok if and only if the entry led to something of the kind asked
      for, empty if a directory; unlinking a directory answers EISDIR after the entry is gone.
      Any other removal changes nothing and fails. */
  lemma RemovalExactly(actions: seq<Action>, parts: seq<Name>, uid: nat, gid: nat, directory: bool, other: seq<Name>)
    requires Run(actions).Done? && RemoveDentry(Run(actions).value, parts, uid, gid, directory).Done?
    ensures var fs := Run(actions).value;
            var (fs', r) := RemoveDentry(fs, parts, uid, gid, directory).value;
            if Removable(fs, parts, uid, gid) then
              var d := Resolve(fs, parts[..|parts| - 1], uid, gid).value.value;
              var i := fs.files[d].data.entries[parts[|parts| - 1]];
              && Walk(fs', other) == (if WithoutDots(parts) <= other then None else Walk(fs, other))
              && (r.Ok? <==> RemovalFits(fs, i, directory))
              && (i in fs.files && fs.files[i].data.Directory? && !directory ==> r == Err(EISDIR))
            else fs' == fs && r.Err?
  {
    RunKeeps(actions);
    var fs := Run(actions).value;
    if Removable(fs, parts, uid, gid) {
      RemovalDrops(fs, parts, uid, gid, directory, other);
    } else {
      RemovalRefused(fs, parts, uid, gid, directory);
    }
  }
}
