/** The in-memory file system's tree: resolving paths, creating and removing entries, and
    printing the path of an open inode. File contents and times are not modelled. */
module RamFs {
  import opened Wrappers

  type Inode = nat
  type Name = string

  const ROOT: Inode := 1
  const USIZE_MAX := 0xffff_ffff_ffff_ffff

  datatype Rwx = Rwx(r: bool, w: bool, x: bool)

  datatype Kind = NoKind | DirKind | FileKind | OtherKind

  datatype Mode = Mode(kind: Kind, owner: Rwx, group: Rwx, other: Rwx)

  datatype Data = Regular | Directory(entries: map<Name, Inode>)

  datatype File = File(mode: Mode, uid: nat, gid: nat, nlink: nat, parent: Inode, openHandles: nat, data: Data)

  datatype Fs = Fs(files: map<Inode, File>, last: nat)

  datatype Access = NoAccess | ReadOnly | WriteOnly | ReadWrite

  datatype Flags = Flags(create: bool, excl: bool, stat: bool, directory: bool, trunc: bool, access: Access, mode: Mode)

  const ALL := Rwx(true, true, true)
  const READABLE := Rwx(true, false, true)

  const EMPTY := Fs(map[ROOT := File(Mode(DirKind, ALL, READABLE, READABLE), 0, 0, 1, ROOT, 0, Directory(map[]))], ROOT)

  /** Counters are machine words. */
  function Minus(n: nat, k: nat): (r: nat)
  {
    if n >= k then n - k else (n + USIZE_MAX + 1 - k) % (USIZE_MAX + 1)
  }

  function Perm(f: File, uid: nat, gid: nat): (p: Rwx)
  {
    if uid == 0 then ALL else if uid == f.uid then f.mode.owner else if gid == f.gid then f.mode.group else f.mode.other
  }

  predicate Allowed(access: Access, p: Rwx)
  {
    match access
    case NoAccess => true
    case ReadOnly => p.r
    case WriteOnly => p.w
    case ReadWrite => p.r && p.w
  }

  predicate Writes(access: Access)
  {
    access.WriteOnly? || access.ReadWrite?
  }

  // ---------------------------------------------------------------- resolving

  function RemoveAt(parts: seq<Name>, i: nat): (r: seq<Name>)
    requires i < |parts|
    ensures |r| == |parts| - 1
  {
    parts[..i] + parts[i + 1..]
  }

  predicate Dots(part: Name)
  {
    part == "." || part == ".."
  }

  /** What one turn of the resolving loop does to the list of parts and the position in it: a
      part of dots is dropped; if the next part is "..", the part before it is dropped too.
      None when the list has run out. */
  function Edit(parts: seq<Name>, i: nat): (r: Option<(seq<Name>, nat)>)
    requires i < |parts|
    ensures r.Some? ==> r.value.1 < |r.value.0| && |r.value.0| - r.value.1 <= |parts| - i
  {
    var parts1 := if Dots(parts[i]) then RemoveAt(parts, i) else parts;
    if i == |parts1| then None
    else if parts1[i] == ".." && i > 0 then Some((RemoveAt(parts1, i - 1), i - 1))
    else Some((parts1, i))
  }

  /** The resolving loop. Running out of parts after an edit is a panic. */
  function ResolveFrom(fs: Fs, parts: seq<Name>, i: nat, cur: Inode, uid: nat, gid: nat): (r: Outcome<Result<Inode>>)
    requires cur in fs.files && i <= |parts|
    decreases |parts| - i
  {
    if i == |parts| then Done(Ok(cur)) else
    var file := fs.files[cur];
    if file.data.Regular? then Done(Err(ENOENT)) else
    if !Perm(file, uid, gid).x then Done(Err(EACCES)) else
    match Edit(parts, i)
    case None => Panic
    case Some((parts1, i1)) =>
      if parts1[i1] !in file.data.entries then Done(Err(ENOENT)) else
      var next := file.data.entries[parts1[i1]];
      if next !in fs.files then Done(Err(EIO)) else
      ResolveFrom(fs, parts1, i1 + 1, next, uid, gid)
  }

  function Resolve(fs: Fs, parts: seq<Name>, uid: nat, gid: nat): (r: Outcome<Result<Inode>>)
  {
    if ROOT !in fs.files then Done(Err(ENOENT)) else ResolveFrom(fs, parts, 0, ROOT, uid, gid)
  }

  // ---------------------------------------------------------------- operations

  type Step<T> = Outcome<(Fs, Result<T>)>

  function Fail<T>(fs: Fs, e: Errno): (r: Step<T>)
  {
    Done((fs, Err(e)))
  }

  function OpenExisting(fs: Fs, parts: seq<Name>, flags: Flags, uid: nat, gid: nat): (r: Step<Inode>)
  {
    match Resolve(fs, parts, uid, gid)
    case Panic => Panic
    case Done(Err(e)) => Fail(fs, e)
    case Done(Ok(i)) =>
      if i !in fs.files then Fail(fs, EIO) else
      var f := fs.files[i];
      if !flags.stat && flags.directory && !f.mode.kind.DirKind? then Fail(fs, ENOTDIR) else
      if !flags.stat && !flags.directory && f.mode.kind.DirKind? then Fail(fs, EISDIR) else
      if !Allowed(flags.access, Perm(f, uid, gid)) then Fail(fs, EACCES) else
      if flags.trunc && Writes(flags.access) && f.data.Directory? then Fail(fs, EBADFD) else
      Done((fs.(files := fs.files[i := f.(openHandles := f.openHandles + 1)]), Ok(i)))
  }

  function NewKind(flags: Flags): (k: Kind)
  {
    if flags.mode.kind.NoKind? then (if flags.directory then DirKind else FileKind) else flags.mode.kind
  }

  function NewFile(flags: Flags, parent: Inode, uid: nat, gid: nat): (f: File)
  {
    var mode := flags.mode.(kind := NewKind(flags));
    if flags.directory then File(mode, uid, gid, 2, parent, 1, Directory(map[]))
    else File(mode, uid, gid, 1, parent, 1, Regular)
  }

  /** Adds `f` under `name`. The inode stays even if the parent turns out to be no directory. */
  function Attach(fs: Fs, f: File, name: Name): (r: (Fs, Result<Inode>))
  {
    var i := fs.last;
    var fs1 := fs.(files := fs.files[i := f]);
    if f.parent !in fs1.files || fs1.files[f.parent].data.Regular? then (fs1, Err(EIO)) else
    var dir := fs1.files[f.parent];
    (fs1.(files := fs1.files[f.parent := dir.(data := Directory(dir.data.entries[name := i]))]), Ok(i))
  }

  function Create(fs: Fs, parts: seq<Name>, flags: Flags, uid: nat, gid: nat): (r: Step<Inode>)
  {
    if flags.stat then Fail(fs, EINVAL) else
    var dir := if parts == [] then [] else parts[..|parts| - 1];
    match Resolve(fs, dir, uid, gid)
    case Panic => Panic
    case Done(Err(e)) => Fail(fs, e)
    case Done(Ok(parent)) =>
      if parts == [] then Fail(fs, EINVAL) else
      if fs.last >= USIZE_MAX then Fail(fs, ENFILE) else
      var fs1 := fs.(last := fs.last + 1);
      if flags.directory != NewKind(flags).DirKind? then Fail(fs1, EINVAL) else
      var f := NewFile(flags, parent, uid, gid);
      if !Allowed(flags.access, Perm(f, uid, gid)) then Fail(fs1, EACCES) else
      Done(Attach(fs1, f, parts[|parts| - 1]))
  }

  function Open(fs: Fs, parts: seq<Name>, flags: Flags, uid: nat, gid: nat): (r: Step<Inode>)
  {
    match Resolve(fs, parts, 0, 0)
    case Panic => Panic
    case Done(found) =>
      if flags.create && flags.excl && found.Ok? then Fail(fs, EEXIST)
      else if flags.create && !found.Ok? then Create(fs, parts, flags, uid, gid)
      else OpenExisting(fs, parts, flags, uid, gid)
  }

  /** Drops an inode nobody links to or holds open. */
  function Collect(fs: Fs, i: Inode): (r: Fs)
    requires i in fs.files
  {
    if fs.files[i].nlink == 0 && fs.files[i].openHandles == 0 then fs.(files := fs.files - {i}) else fs
  }

  function Unlink(fs: Fs, i: Inode, k: nat): (r: Fs)
    requires i in fs.files
    ensures i in r.files
  {
    fs.(files := fs.files[i := fs.files[i].(nlink := Minus(fs.files[i].nlink, k))])
  }

  /** Once the entry is gone from the directory it stays gone, whatever comes after. */
  function DropInode(fs: Fs, parent: Inode, i: Inode, directory: bool): (r: (Fs, Result<()>))
    requires parent in fs.files
  {
    if i !in fs.files then (fs, Err(EIO)) else
    match fs.files[i].data
    case Directory(entries) =>
      if !directory then (fs, Err(EISDIR)) else
      if entries != map[] then (fs, Err(ENOTEMPTY)) else
      (Collect(Unlink(Unlink(fs, parent, 1), i, 2), i), Ok(()))
    case Regular =>
      if directory then (fs, Err(EISDIR)) else (Collect(Unlink(fs, i, 1), i), Ok(()))
  }

  function RemoveEntry(fs: Fs, parent: Inode, name: Name, uid: nat, gid: nat, directory: bool): (r: (Fs, Result<()>))
  {
    if parent !in fs.files then (fs, Err(EIO)) else
    var dir := fs.files[parent];
    if !Perm(dir, uid, gid).w then (fs, Err(EACCES)) else
    if dir.data.Regular? then (fs, Err(ENOTDIR)) else
    if name !in dir.data.entries then (fs, Err(ENOENT)) else
    var fs1 := fs.(files := fs.files[parent := dir.(data := Directory(dir.data.entries - {name}))]);
    DropInode(fs1, parent, dir.data.entries[name], directory)
  }

  function RemoveDentry(fs: Fs, parts: seq<Name>, uid: nat, gid: nat, directory: bool): (r: Step<()>)
  {
    var dir := if parts == [] then [] else parts[..|parts| - 1];
    match Resolve(fs, dir, uid, gid)
    case Panic => Panic
    case Done(Err(e)) => Fail(fs, e)
    case Done(Ok(parent)) =>
      if parts == [] then Fail(fs, EINVAL)
      else Done(RemoveEntry(fs, parent, parts[|parts| - 1], uid, gid, directory))
  }

  function OnClose(fs: Fs, i: Inode): (r: Fs)
  {
    if i !in fs.files then fs else
    var f := fs.files[i];
    Collect(fs.(files := fs.files[i := f.(openHandles := Minus(f.openHandles, 1))]), i)
  }

  /** The type bits of the old mode are kept and the new ones added. */
  function JoinKinds(a: Kind, b: Kind): (k: Kind)
  {
    if a.NoKind? then b else if b.NoKind? || a == b then a else OtherKind
  }

  function Chmod(fs: Fs, i: Inode, mode: Mode): (r: (Fs, Result<()>))
  {
    if i !in fs.files then (fs, Err(EBADFD)) else
    var kind := JoinKinds(fs.files[i].mode.kind, mode.kind);
    (fs.(files := fs.files[i := fs.files[i].(mode := mode.(kind := kind))]), Ok(()))
  }

  function Chown(fs: Fs, i: Inode, uid: nat, gid: nat): (r: (Fs, Result<()>))
  {
    if i !in fs.files then (fs, Err(EBADFD)) else
    (fs.(files := fs.files[i := fs.files[i].(uid := uid, gid := gid)]), Ok(()))
  }

  // ---------------------------------------------------------------- paths as text

  function Split(s: string): (r: seq<Name>)
    ensures r != []
  {
    if s == [] then [""] else
    var rest := Split(s[1..]);
    if s[0] == '/' then [""] + rest else [[s[0]] + rest[0]] + rest[1..]
  }

  function NonEmpty(parts: seq<Name>): (r: seq<Name>)
  {
    if parts == [] then [] else (if parts[0] == "" then [] else [parts[0]]) + NonEmpty(parts[1..])
  }

  function TrimStart(s: string): (r: string)
  {
    if s != "" && s[0] == '/' then TrimStart(s[1..]) else s
  }

  function Components(path: string): (r: seq<Name>)
  {
    NonEmpty(Split(TrimStart(path)))
  }

  function Print(parts: seq<Name>): (r: string)
  {
    if parts == [] then "" else "/" + parts[0] + Print(parts[1..])
  }

  datatype Action =
    | DoOpen(path: string, flags: Flags, uid: nat, gid: nat)
    | DoRemove(path: string, uid: nat, gid: nat, directory: bool)
    | DoClose(i: Inode)
    | DoChmod(i: Inode, mode: Mode)
    | DoChown(i: Inode, uid: nat, gid: nat)

  function Next(fs: Fs, a: Action): (r: Outcome<Fs>)
  {
    match a
    case DoOpen(path, flags, uid, gid) =>
      (match Open(fs, Components(path), flags, uid, gid) case Panic => Panic case Done((fs1, _)) => Done(fs1))
    case DoRemove(path, uid, gid, directory) =>
      (match RemoveDentry(fs, Components(path), uid, gid, directory)
       case Panic => Panic
       case Done((fs1, _)) => Done(fs1))
    case DoClose(i) => Done(OnClose(fs, i))
    case DoChmod(i, mode) => Done(Chmod(fs, i, mode).0)
    case DoChown(i, uid, gid) => Done(Chown(fs, i, uid, gid).0)
  }

  function Run(actions: seq<Action>): (r: Outcome<Fs>)
  {
    if actions == [] then Done(EMPTY) else
    match Run(actions[..|actions| - 1])
    case Panic => Panic
    case Done(fs) => Next(fs, actions[|actions| - 1])
  }
}

/** Path printing and path resolution are inverse to each other. */
module RamFsTheorems {
  import opened Wrappers
  import opened RamFs

  ghost predicate ValidName(n: Name)
  {
    n != "" && !Dots(n) && forall i :: 0 <= i < |n| ==> n[i] != '/'
  }

  ghost predicate IsEntry(fs: Fs, d: Inode, n: Name, i: Inode)
  {
    d in fs.files && fs.files[d].data.Directory? && n in fs.files[d].data.entries && fs.files[d].data.entries[n] == i
  }

  /** Inode numbers were handed out, and apart from the root a parent is older than its child. */
  ghost predicate Numbered(fs: Fs)
  {
    && fs.last >= ROOT
    && (forall i :: i in fs.files ==> ROOT <= i <= fs.last)
    && (forall i :: i in fs.files && i != ROOT ==> ROOT <= fs.files[i].parent < i)
  }

  /** An entry has a proper name, leads to a later inode, and is that inode's only entry. */
  ghost predicate Entries(fs: Fs)
  {
    && (forall d: Inode, n, i: Inode :: IsEntry(fs, d, n, i) ==>
          ValidName(n) && d < i <= fs.last && (i in fs.files ==> fs.files[i].parent == d))
    && (forall d: Inode, n, m, i: Inode :: IsEntry(fs, d, n, i) && IsEntry(fs, d, m, i) ==> n == m)
  }

  ghost predicate Inv(fs: Fs)
  {
    Numbered(fs) && Entries(fs)
  }

  /** A change that adds no entry, keeps parents and may drop files. */
  ghost predicate Shrinks(fs: Fs, fs': Fs)
  {
    && fs'.last >= fs.last
    && (forall i :: i in fs'.files ==> i in fs.files && fs'.files[i].parent == fs.files[i].parent)
    && (forall d: Inode, n, i: Inode :: IsEntry(fs', d, n, i) ==> IsEntry(fs, d, n, i))
  }

  lemma ShrinksKeeps(fs: Fs, fs': Fs)
    requires Inv(fs) && Shrinks(fs, fs')
    ensures Inv(fs')
  {
  }

  ghost predicate SubEntries(a: Data, b: Data)
  {
    || a == b
    || (&& a.Directory? && b.Directory?
        && forall n :: n in a.entries ==> n in b.entries && a.entries[n] == b.entries[n])
  }

  lemma OneFileShrinks(fs: Fs, i: Inode, f: File)
    requires i in fs.files && f.parent == fs.files[i].parent && SubEntries(f.data, fs.files[i].data)
    ensures Shrinks(fs, fs.(files := fs.files[i := f]))
  {
  }

  lemma CollectShrinks(fs: Fs, i: Inode)
    requires i in fs.files
    ensures Shrinks(fs, Collect(fs, i))
  {
  }

  lemma ShrinksTrans(fs: Fs, fs1: Fs, fs2: Fs)
    requires Shrinks(fs, fs1) && Shrinks(fs1, fs2)
    ensures Shrinks(fs, fs2)
  {
  }

  lemma UnlinkShrinks(fs: Fs, i: Inode, k: nat)
    requires i in fs.files
    ensures Shrinks(fs, Unlink(fs, i, k))
  {
    OneFileShrinks(fs, i, fs.files[i].(nlink := Minus(fs.files[i].nlink, k)));
  }

  lemma OpenExistingShrinks(fs: Fs, parts: seq<Name>, flags: Flags, uid: nat, gid: nat)
    requires OpenExisting(fs, parts, flags, uid, gid).Done?
    ensures Shrinks(fs, OpenExisting(fs, parts, flags, uid, gid).value.0)
  {
    var step := OpenExisting(fs, parts, flags, uid, gid).value;
    if step.1.Ok? {
      var i := step.1.value;
      OneFileShrinks(fs, i, fs.files[i].(openHandles := fs.files[i].openHandles + 1));
    }
  }

  lemma DropInodeShrinks(fs: Fs, parent: Inode, i: Inode, directory: bool)
    requires parent in fs.files
    ensures Shrinks(fs, DropInode(fs, parent, i, directory).0)
  {
    if i in fs.files {
      if fs.files[i].data.Directory? && directory && fs.files[i].data.entries == map[] {
        var fs1 := Unlink(fs, parent, 1);
        var fs2 := Unlink(fs1, i, 2);
        UnlinkShrinks(fs, parent, 1);
        UnlinkShrinks(fs1, i, 2);
        CollectShrinks(fs2, i);
        ShrinksTrans(fs, fs1, fs2);
        ShrinksTrans(fs, fs2, Collect(fs2, i));
      } else if fs.files[i].data.Regular? && !directory {
        var fs1 := Unlink(fs, i, 1);
        UnlinkShrinks(fs, i, 1);
        CollectShrinks(fs1, i);
        ShrinksTrans(fs, fs1, Collect(fs1, i));
      }
    }
  }

  lemma RemoveEntryShrinks(fs: Fs, parent: Inode, name: Name, uid: nat, gid: nat, directory: bool)
    ensures Shrinks(fs, RemoveEntry(fs, parent, name, uid, gid, directory).0)
  {
    if parent in fs.files && fs.files[parent].data.Directory? && name in fs.files[parent].data.entries {
      var dir := fs.files[parent];
      var dir' := dir.(data := Directory(dir.data.entries - {name}));
      var fs1 := fs.(files := fs.files[parent := dir']);
      OneFileShrinks(fs, parent, dir');
      DropInodeShrinks(fs1, parent, dir.data.entries[name], directory);
      ShrinksTrans(fs, fs1, DropInode(fs1, parent, dir.data.entries[name], directory).0);
    }
  }

  lemma OnCloseShrinks(fs: Fs, i: Inode)
    ensures Shrinks(fs, OnClose(fs, i))
  {
    if i in fs.files {
      var f := fs.files[i].(openHandles := Minus(fs.files[i].openHandles, 1));
      OneFileShrinks(fs, i, f);
      CollectShrinks(fs.(files := fs.files[i := f]), i);
      ShrinksTrans(fs, fs.(files := fs.files[i := f]), OnClose(fs, i));
    }
  }

  lemma AttributesShrink(fs: Fs, i: Inode, mode: Mode, uid: nat, gid: nat)
    ensures Shrinks(fs, Chmod(fs, i, mode).0) && Shrinks(fs, Chown(fs, i, uid, gid).0)
  {
    if i in fs.files {
      var kind := JoinKinds(fs.files[i].mode.kind, mode.kind);
      OneFileShrinks(fs, i, fs.files[i].(mode := mode.(kind := kind)));
      OneFileShrinks(fs, i, fs.files[i].(uid := uid, gid := gid));
    }
  }

  // ---------------------------------------------------------------- creating

  /** A fresh inode under an older parent, entered there by a proper name that was free. */
  lemma AttachKeeps(fs: Fs, f: File, name: Name)
    requires Inv(fs) && fs.last !in fs.files && ROOT <= f.parent < fs.last
    requires forall d: Inode, n, i: Inode :: IsEntry(fs, d, n, i) ==> i < fs.last
    requires f.data == Regular || f.data == Directory(map[])
    requires f.parent in fs.files && fs.files[f.parent].data.Directory? ==> ValidName(name)
    ensures Inv(Attach(fs, f, name).0)
  {
    var i, fs' := fs.last, Attach(fs, f, name).0;
    forall d, n, j | IsEntry(fs', d, n, j)
      ensures IsEntry(fs, d, n, j) || (d == f.parent && n == name && j == i && ValidName(name))
    {
    }
  }

  ghost predicate ProperName(n: Name)
  {
    n != "" && forall i :: 0 <= i < |n| ==> n[i] != '/'
  }

  lemma {:induction false} SplitHasNoSlash(s: string)
    ensures forall p :: p in Split(s) ==> forall i :: 0 <= i < |p| ==> p[i] != '/'
  {
    if s != [] { SplitHasNoSlash(s[1..]); }
  }

  lemma {:induction false} NonEmptyKeeps(parts: seq<Name>)
    ensures forall p :: p in NonEmpty(parts) <==> p in parts && p != ""
  {
    if parts != [] { NonEmptyKeeps(parts[1..]); }
  }

  lemma ComponentsAreProper(path: string)
    ensures forall p :: p in Components(path) ==> ProperName(p)
  {
    SplitHasNoSlash(TrimStart(path));
    NonEmptyKeeps(Split(TrimStart(path)));
  }

  lemma EditAppend(parts: seq<Name>, x: Name, i: nat)
    requires i < |parts| && Edit(parts, i).Some?
    ensures Edit(parts + [x], i) == Some((Edit(parts, i).value.0 + [x], Edit(parts, i).value.1))
  {
    var parts1 := if Dots(parts[i]) then RemoveAt(parts, i) else parts;
    assert Dots(parts[i]) ==> RemoveAt(parts + [x], i) == RemoveAt(parts, i) + [x];
    assert (parts1 + [x])[i] == parts1[i];
    if i > 0 { assert RemoveAt(parts1 + [x], i - 1) == RemoveAt(parts1, i - 1) + [x]; }
  }

  /** Whatever someone resolves, root resolves as well. */
  lemma {:induction false} RootSeesAll(fs: Fs, parts: seq<Name>, i: nat, cur: Inode, uid: nat, gid: nat)
    requires cur in fs.files && i <= |parts|
    requires ResolveFrom(fs, parts, i, cur, uid, gid).Done? && ResolveFrom(fs, parts, i, cur, uid, gid).value.Ok?
    ensures ResolveFrom(fs, parts, i, cur, 0, 0) == ResolveFrom(fs, parts, i, cur, uid, gid)
    decreases |parts| - i
  {
    if i < |parts| {
      var (parts1, i1) := Edit(parts, i).value;
      RootSeesAll(fs, parts1, i1 + 1, fs.files[cur].data.entries[parts1[i1]], uid, gid);
    }
  }

  /** The resolving succeeded, at a directory that this user may search. */
  ghost predicate Searchable(fs: Fs, r: Outcome<Result<Inode>>, uid: nat, gid: nat)
  {
    && r.Done? && r.value.Ok? && r.value.value in fs.files
    && fs.files[r.value.value].data.Directory? && Perm(fs.files[r.value.value], uid, gid).x
  }

  /** Dots at the very end of the list: the edit leaves nothing at the position. */
  lemma EditAtEnd(parts: seq<Name>, x: Name, i: nat)
    requires i < |parts| && Edit(parts, i).None?
    ensures Edit(parts + [x], i).Some? && Edit(parts + [x], i).value.1 + 1 == |Edit(parts + [x], i).value.0|
  {
    assert RemoveAt(parts + [x], i) == RemoveAt(parts, i) + [x];
  }

  /** One turn of the loop, seen from its edit: what `OneTurn` says the loop does. */
  function AfterEdit(fs: Fs, edit: Option<(seq<Name>, nat)>, cur: Inode, uid: nat, gid: nat)
    : (r: Outcome<Result<Inode>>)
    requires cur in fs.files && (edit.Some? ==> edit.value.1 < |edit.value.0|)
  {
    var file := fs.files[cur];
    if file.data.Regular? then Done(Err(ENOENT)) else
    if !Perm(file, uid, gid).x then Done(Err(EACCES)) else
    match edit
    case None => Panic
    case Some((parts, i)) =>
      if parts[i] !in file.data.entries then Done(Err(ENOENT)) else
      var next := file.data.entries[parts[i]];
      if next !in fs.files then Done(Err(EIO)) else
      ResolveFrom(fs, parts, i + 1, next, uid, gid)
  }

  lemma OneTurn(fs: Fs, parts: seq<Name>, i: nat, cur: Inode, uid: nat, gid: nat)
    requires cur in fs.files && i < |parts|
    ensures ResolveFrom(fs, parts, i, cur, uid, gid) == AfterEdit(fs, Edit(parts, i), cur, uid, gid)
  {
  }

  /** The loop panics on `parts` and `x` if and only if `x` is dots after a searchable directory. */
  ghost predicate PanicLaw(fs: Fs, parts: seq<Name>, x: Name, i: nat, cur: Inode, uid: nat, gid: nat)
    requires cur in fs.files && i <= |parts|
  {
    ResolveFrom(fs, parts + [x], i, cur, uid, gid) == Panic <==>
    Dots(x) && Searchable(fs, ResolveFrom(fs, parts, i, cur, uid, gid), uid, gid)
  }

  /** The last part is all that is left. */
  lemma PanicsAtEnd(fs: Fs, parts: seq<Name>, x: Name, cur: Inode, uid: nat, gid: nat)
    requires cur in fs.files
    ensures PanicLaw(fs, parts, x, |parts|, cur, uid, gid)
  {
    var all := parts + [x];
    assert all[|parts|] == x && (Dots(x) ==> RemoveAt(all, |parts|) == parts);
    assert Edit(all, |parts|) == if Dots(x) then None else Some((all, |parts|));
  }

  /** Dots in front of the last part: it is looked up as a name, and nothing is left. */
  lemma NoPanicAfterDots(fs: Fs, parts: seq<Name>, x: Name, i: nat, cur: Inode, uid: nat, gid: nat)
    requires cur in fs.files && i < |parts| && Edit(parts, i).None?
    ensures PanicLaw(fs, parts, x, i, cur, uid, gid)
  {
    EditAtEnd(parts, x, i);
    OneTurn(fs, parts, i, cur, uid, gid);
  }

  /** The directory to enter next, if the turn gets that far. */
  ghost predicate Enters(fs: Fs, edit: (seq<Name>, nat), cur: Inode, next: Inode)
    requires cur in fs.files && edit.1 < |edit.0|
  {
    && fs.files[cur].data.Directory? && edit.0[edit.1] in fs.files[cur].data.entries
    && next == fs.files[cur].data.entries[edit.0[edit.1]] && next in fs.files
  }

  lemma PanicStep(fs: Fs, parts: seq<Name>, x: Name, i: nat, cur: Inode, uid: nat, gid: nat)
    requires cur in fs.files && i < |parts| && Edit(parts, i).Some?
    requires var e := Edit(parts, i).value;
             forall next :: Enters(fs, e, cur, next) ==> PanicLaw(fs, e.0, x, e.1 + 1, next, uid, gid)
    ensures PanicLaw(fs, parts, x, i, cur, uid, gid)
  {
    var e := Edit(parts, i).value;
    EditAppend(parts, x, i);
    assert (e.0 + [x])[e.1] == e.0[e.1];
    OneTurn(fs, parts, i, cur, uid, gid);
    OneTurn(fs, parts + [x], i, cur, uid, gid);
    if fs.files[cur].data.Directory? && e.0[e.1] in fs.files[cur].data.entries {
      var next := fs.files[cur].data.entries[e.0[e.1]];
      assert next in fs.files ==> Enters(fs, e, cur, next);
    }
  }

  /** The resolving loop runs out of parts, which is a panic, if and only if the last part is
      "." or ".." and everything before it resolves, for the same user, to a directory that the
      user may search. */
  lemma {:induction false} ResolveFromPanics(fs: Fs, parts: seq<Name>, x: Name, i: nat, cur: Inode, uid: nat, gid: nat)
    requires cur in fs.files && i <= |parts|
    ensures PanicLaw(fs, parts, x, i, cur, uid, gid)
    decreases |parts| - i
  {
    if i == |parts| {
      PanicsAtEnd(fs, parts, x, cur, uid, gid);
    } else if Edit(parts, i).None? {
      NoPanicAfterDots(fs, parts, x, i, cur, uid, gid);
    } else {
      var e := Edit(parts, i).value;
      forall next | Enters(fs, e, cur, next) ensures PanicLaw(fs, e.0, x, e.1 + 1, next, uid, gid) {
        ResolveFromPanics(fs, e.0, x, e.1 + 1, next, uid, gid);
      }
      PanicStep(fs, parts, x, i, cur, uid, gid);
    }
  }

  /** What a caller can check: the path ends in dots after a directory it may search. */
  ghost predicate EndsInDots(fs: Fs, parts: seq<Name>, uid: nat, gid: nat)
  {
    && parts != [] && Dots(parts[|parts| - 1])
    && Searchable(fs, Resolve(fs, parts[..|parts| - 1], uid, gid), uid, gid)
  }

  lemma ResolvePanicsExactly(fs: Fs, parts: seq<Name>, uid: nat, gid: nat)
    ensures Resolve(fs, parts, uid, gid) == Panic <==> EndsInDots(fs, parts, uid, gid)
  {
    if parts != [] && ROOT in fs.files {
      assert parts[..|parts| - 1] + [parts[|parts| - 1]] == parts;
      ResolveFromPanics(fs, parts[..|parts| - 1], parts[|parts| - 1], 0, ROOT, uid, gid);
    }
  }

  /** A path that makes the loop panic for someone makes it panic for root. */
  lemma RootPanicsToo(fs: Fs, parts: seq<Name>, uid: nat, gid: nat)
    requires EndsInDots(fs, parts, uid, gid)
    ensures EndsInDots(fs, parts, 0, 0)
  {
    RootSeesAll(fs, parts[..|parts| - 1], 0, ROOT, uid, gid);
  }

  /** Opening panics if and only if the path ends in dots after a directory, or it names
      something to be created and the path of its directory ends in dots after a directory that
      the caller may search. */
  lemma OpenPanicsExactly(fs: Fs, parts: seq<Name>, flags: Flags, uid: nat, gid: nat)
    ensures Open(fs, parts, flags, uid, gid) == Panic <==>
            || EndsInDots(fs, parts, 0, 0)
            || (&& flags.create && !flags.stat && parts != []
                && Resolve(fs, parts, 0, 0).Done? && Resolve(fs, parts, 0, 0).value.Err?
                && EndsInDots(fs, parts[..|parts| - 1], uid, gid))
  {
    ResolvePanicsExactly(fs, parts, 0, 0);
    ResolvePanicsExactly(fs, parts, uid, gid);
    if EndsInDots(fs, parts, uid, gid) { RootPanicsToo(fs, parts, uid, gid); }
    if parts != [] { ResolvePanicsExactly(fs, parts[..|parts| - 1], uid, gid); }
  }

  lemma RemovePanicsExactly(fs: Fs, parts: seq<Name>, uid: nat, gid: nat, directory: bool)
    ensures RemoveDentry(fs, parts, uid, gid, directory) == Panic <==>
            parts != [] && EndsInDots(fs, parts[..|parts| - 1], uid, gid)
  {
    if parts != [] { ResolvePanicsExactly(fs, parts[..|parts| - 1], uid, gid); }
  }

  /** Opening "." on a fresh file system panics, whoever asks and however. */
  lemma OpeningDotPanics(flags: Flags, uid: nat, gid: nat)
    ensures Next(EMPTY, DoOpen(".", flags, uid, gid)) == Panic
  {
    SplitName(".", "");
    assert "." + "" == "." && Split(".") == ["."];
    assert ["."][1..] == [] && Components(".") == ["."];
    OpenPanicsExactly(EMPTY, ["."], flags, uid, gid);
  }

  lemma BelowDotSplits()
    ensures Components("./n") == [".", "n"]
  {
    SplitName("n", "");
    SplitName(".", "/n");
    assert "n" + "" == "n" && "." + "/n" == "./n" && "/n"[1..] == "n" && Split("./n") == [".", "n"];
    assert [".", "n"][1..] == ["n"] && ["n"][1..] == [];
  }

  /** So does creating "./n". */
  lemma CreatingBelowDotPanics(flags: Flags, uid: nat, gid: nat)
    requires flags.create && !flags.stat
    ensures Next(EMPTY, DoOpen("./n", flags, uid, gid)) == Panic
  {
    BelowDotSplits();
    var parts := [".", "n"];
    assert parts[1..] == ["n"];
    assert RemoveAt(parts, 0) == ["n"] && Resolve(EMPTY, parts, 0, 0) == Done(Err(ENOENT));
    assert parts[..1] == ["."] && ["."][..0] == [];
    OpenPanicsExactly(EMPTY, parts, flags, uid, gid);
  }

  lemma {:induction false} ResolvedExists(fs: Fs, parts: seq<Name>, i: nat, cur: Inode, uid: nat, gid: nat)
    requires cur in fs.files && i <= |parts|
    ensures var r := ResolveFrom(fs, parts, i, cur, uid, gid);
            r.Done? && r.value.Ok? ==> r.value.value in fs.files
    decreases |parts| - i
  {
    if i < |parts| && fs.files[cur].data.Directory? && Edit(parts, i).Some? {
      var (parts1, i1) := Edit(parts, i).value;
      if parts1[i1] in fs.files[cur].data.entries && fs.files[cur].data.entries[parts1[i1]] in fs.files {
        ResolvedExists(fs, parts1, i1 + 1, fs.files[cur].data.entries[parts1[i1]], uid, gid);
      }
    }
  }

  /** The last part of a path that is missing although its directory is there is a valid name. */
  lemma MissingNameIsValid(fs: Fs, parts: seq<Name>, uid: nat, gid: nat)
    requires parts != [] && ROOT in fs.files && ProperName(parts[|parts| - 1]) && Resolve(fs, parts, 0, 0).Done?
    ensures var found := Resolve(fs, parts[..|parts| - 1], uid, gid);
            found.Done? && found.value.Ok? ==>
              && found.value.value in fs.files
              && (fs.files[found.value.value].data.Directory? ==> ValidName(parts[|parts| - 1]))
  {
    var dir, x := parts[..|parts| - 1], parts[|parts| - 1];
    assert dir + [x] == parts;
    ResolvedExists(fs, dir, 0, ROOT, uid, gid);
    var found := Resolve(fs, dir, uid, gid);
    ResolvePanicsExactly(fs, parts, 0, 0);
    if found.Done? && found.value.Ok? { RootSeesAll(fs, dir, 0, ROOT, uid, gid); }
  }

  lemma CreateKeeps(fs: Fs, parts: seq<Name>, flags: Flags, uid: nat, gid: nat)
    requires Inv(fs) && (forall p :: p in parts ==> ProperName(p))
    requires Resolve(fs, parts, 0, 0).Done? && Create(fs, parts, flags, uid, gid).Done?
    ensures Inv(Create(fs, parts, flags, uid, gid).value.0)
  {
    var fs1 := fs.(last := fs.last + 1);
    ShrinksKeeps(fs, fs1);
    if parts != [] && ROOT in fs.files && !flags.stat {
      MissingNameIsValid(fs, parts, uid, gid);
      var found := Resolve(fs, parts[..|parts| - 1], uid, gid);
      if found.value.Ok? { AttachKeeps(fs1, NewFile(flags, found.value.value, uid, gid), parts[|parts| - 1]); }
    }
  }

  lemma StepKeeps(fs: Fs, a: Action)
    requires Inv(fs) && Next(fs, a).Done?
    ensures Inv(Next(fs, a).value)
  {
    match a {
      case DoOpen(path, flags, uid, gid) =>
        var parts := Components(path);
        ComponentsAreProper(path);
        if flags.create && !Resolve(fs, parts, 0, 0).value.Ok? {
          CreateKeeps(fs, parts, flags, uid, gid);
        } else if !(flags.create && flags.excl) || !Resolve(fs, parts, 0, 0).value.Ok? {
          OpenExistingShrinks(fs, parts, flags, uid, gid);
          ShrinksKeeps(fs, Next(fs, a).value);
        }
      case DoRemove(path, uid, gid, directory) =>
        var parts := Components(path);
        if parts != [] {
          var found := Resolve(fs, parts[..|parts| - 1], uid, gid);
          if found.value.Ok? {
            RemoveEntryShrinks(fs, found.value.value, parts[|parts| - 1], uid, gid, directory);
            ShrinksKeeps(fs, Next(fs, a).value);
          }
        }
      case DoClose(i) =>
        OnCloseShrinks(fs, i);
        ShrinksKeeps(fs, Next(fs, a).value);
      case DoChmod(i, mode) =>
        AttributesShrink(fs, i, mode, 0, 0);
        ShrinksKeeps(fs, Next(fs, a).value);
      case DoChown(i, uid, gid) =>
        AttributesShrink(fs, i, Mode(NoKind, ALL, ALL, ALL), uid, gid);
        ShrinksKeeps(fs, Next(fs, a).value);
    }
  }

  /** In every run parents are older than their children, every entry is its inode's only one,
      and no entry is called "." or "..". */
  lemma {:induction false} RunKeeps(actions: seq<Action>)
    requires Run(actions).Done?
    ensures Inv(Run(actions).value)
    decreases |actions|
  {
    if actions != [] {
      RunKeeps(actions[..|actions| - 1]);
      StepKeeps(Run(actions[..|actions| - 1]).value, actions[|actions| - 1]);
    }
  }

  // ---------------------------------------------------------------- paths

  /** The names from the root to `i`, found by following parents upwards. */
  ghost predicate IsPath(fs: Fs, i: Inode, names: seq<Name>)
    decreases |names|
  {
    && i in fs.files
    && if i == ROOT then names == []
       else && names != []
            && IsEntry(fs, fs.files[i].parent, names[|names| - 1], i)
            && IsPath(fs, fs.files[i].parent, names[..|names| - 1])
  }

  /** Following entries downwards, with every name taken as it is. */
  ghost function Walk(fs: Fs, names: seq<Name>): (r: Option<Inode>)
    ensures r.Some? ==> r.value in fs.files
    decreases |names|
  {
    if names == [] then (if ROOT in fs.files then Some(ROOT) else None) else
    match Walk(fs, names[..|names| - 1])
    case None => None
    case Some(d) =>
      if fs.files[d].data.Regular? || names[|names| - 1] !in fs.files[d].data.entries then None else
      var i := fs.files[d].data.entries[names[|names| - 1]];
      if i in fs.files then Some(i) else None
  }

  ghost predicate Plain(names: seq<Name>)
  {
    forall k :: 0 <= k < |names| ==> !Dots(names[k])
  }

  /** For names without dots the resolving loop, run by root, is the walk. */
  lemma {:induction false} ResolveFromWalks(fs: Fs, names: seq<Name>, k: nat)
    requires Plain(names) && k <= |names| && Walk(fs, names[..k]).Some?
    ensures var r := ResolveFrom(fs, names, k, Walk(fs, names[..k]).value, 0, 0);
            && r.Done? && (Walk(fs, names).Some? <==> r.value.Ok?)
            && (r.value.Ok? ==> Walk(fs, names) == Some(r.value.value))
    decreases |names| - k
  {
    if k == |names| {
      assert names[..k] == names;
    } else {
      assert names[..k + 1][..k] == names[..k];
      if Walk(fs, names[..k + 1]).Some? {
        ResolveFromWalks(fs, names, k + 1);
      } else {
        WalkStops(fs, names, k + 1);
      }
    }
  }

  lemma {:induction false} WalkStops(fs: Fs, names: seq<Name>, k: nat)
    requires k <= |names| && Walk(fs, names[..k]).None?
    ensures Walk(fs, names).None?
    decreases |names| - k
  {
    if k == |names| {
      assert names[..k] == names;
    } else {
      assert names[..k + 1][..k] == names[..k];
      WalkStops(fs, names, k + 1);
    }
  }

  lemma ResolveIsWalk(fs: Fs, names: seq<Name>, i: Inode)
    requires Plain(names)
    ensures Resolve(fs, names, 0, 0) == Done(Ok(i)) <==> Walk(fs, names) == Some(i)
  {
    assert names[..0] == [];
    if ROOT in fs.files { ResolveFromWalks(fs, names, 0); } else { WalkStops(fs, names, 0); }
  }

  lemma {:induction false} WalkIsPath(fs: Fs, names: seq<Name>, i: Inode)
    requires Inv(fs)
    ensures Walk(fs, names) == Some(i) <==> IsPath(fs, i, names)
    decreases |names|
  {
    if names != [] {
      var init, x := names[..|names| - 1], names[|names| - 1];
      if Walk(fs, init).Some? {
        var d := Walk(fs, init).value;
        WalkIsPath(fs, init, d);
        if IsEntry(fs, d, x, i) && i in fs.files { assert fs.files[i].parent == d; }
      }
      if i in fs.files { WalkIsPath(fs, init, fs.files[i].parent); }
    }
  }

  lemma {:induction false} PathsHaveValidNames(fs: Fs, i: Inode, names: seq<Name>)
    requires Inv(fs) && IsPath(fs, i, names)
    ensures forall k :: 0 <= k < |names| ==> ValidName(names[k])
    decreases |names|
  {
    if i != ROOT { PathsHaveValidNames(fs, fs.files[i].parent, names[..|names| - 1]); }
  }

  // ---------------------------------------------------------------- paths as text

  lemma {:induction false} SplitName(n: Name, rest: string)
    requires forall k :: 0 <= k < |n| ==> n[k] != '/'
    requires rest == "" || rest[0] == '/'
    ensures Split(n + rest) == [n] + if rest == "" then [] else Split(rest[1..])
    decreases |n|
  {
    if n == "" {
      assert n + rest == rest;
    } else {
      assert (n + rest)[1..] == n[1..] + rest;
      SplitName(n[1..], rest);
      assert [n[0]] + n[1..] == n;
    }
  }

  lemma DropSlash(a: string, rest: string)
    ensures ("/" + a + rest)[1..] == a + rest && ("/" + a + rest)[0] == '/'
  {
  }

  lemma PrintedTail(parts: seq<Name>)
    requires parts != []
    ensures Print(parts) != "" && Print(parts)[0] == '/' && Print(parts)[1..] == parts[0] + Print(parts[1..])
  {
    DropSlash(parts[0], Print(parts[1..]));
  }

  lemma {:induction false} SplitPrinted(parts: seq<Name>)
    requires parts != [] && forall k :: 0 <= k < |parts| ==> ProperName(parts[k])
    ensures Split(Print(parts)[1..]) == parts
    decreases |parts|
  {
    PrintedTail(parts);
    if |parts| > 1 {
      PrintedTail(parts[1..]);
      SplitPrinted(parts[1..]);
      assert [parts[0]] + parts[1..] == parts;
    } else {
      assert [parts[0]] + [] == parts;
    }
    SplitName(parts[0], Print(parts[1..]));
  }

  lemma {:induction false} NonEmptyProper(parts: seq<Name>)
    requires forall k :: 0 <= k < |parts| ==> parts[k] != ""
    ensures NonEmpty(parts) == parts
  {
    if parts != [] { NonEmptyProper(parts[1..]); }
  }

  /** Cutting a printed path at its slashes gives the names back. */
  lemma ComponentsOfPrinted(parts: seq<Name>)
    requires forall k :: 0 <= k < |parts| ==> ProperName(parts[k])
    ensures Components(Print(parts)) == parts
  {
    if parts != [] {
      var text := Print(parts);
      PrintedTail(parts);
      assert text[1] == text[1..][0] == parts[0][0];
      assert TrimStart(text) == text[1..] by {
        assert TrimStart(text) == TrimStart(text[1..]);
      }
      SplitPrinted(parts);
      NonEmptyProper(parts);
    }
  }

  /** In every run: the printed path of an inode, resolved by root, is that inode. */
  lemma PrintedPathsResolve(actions: seq<Action>, i: Inode, names: seq<Name>)
    requires Run(actions).Done? && IsPath(Run(actions).value, i, names)
    ensures Components(Print(names)) == names
    ensures Resolve(Run(actions).value, Components(Print(names)), 0, 0) == Done(Ok(i))
  {
    RunKeeps(actions);
    var fs := Run(actions).value;
    PathsHaveValidNames(fs, i, names);
    ComponentsOfPrinted(names);
    WalkIsPath(fs, names, i);
    ResolveIsWalk(fs, names, i);
  }
}

/** The scheme as it runs: loops over parts and parents, and an inode table updated in place. */
module RamFsObject {
  import opened Wrappers
  import opened RamFs
  import opened RamFsTheorems
  import F = RamFs

  ghost predicate HasPath(fs: Fs, i: Inode)
  {
    exists names :: IsPath(fs, i, names)
  }

  lemma PathGoesUp(fs: Fs, i: Inode)
    requires HasPath(fs, i) && i != ROOT
    ensures i in fs.files && HasPath(fs, fs.files[i].parent)
    ensures exists name :: IsEntry(fs, fs.files[i].parent, name, i)
  {
    var names :| IsPath(fs, i, names);
    assert IsPath(fs, fs.files[i].parent, names[..|names| - 1]);
    assert IsEntry(fs, fs.files[i].parent, names[|names| - 1], i);
  }

  /** `chain` leads from `cur` down to `inode`, and climbing up to `cur` gave no path away. */
  ghost predicate Climbed(fs: Fs, inode: Inode, cur: Inode, chain: seq<Name>)
  {
    && (HasPath(fs, inode) ==> HasPath(fs, cur))
    && forall names :: IsPath(fs, cur, names) ==> IsPath(fs, inode, names + chain)
  }

  lemma ClimbStart(fs: Fs, inode: Inode)
    ensures Climbed(fs, inode, inode, [])
  {
    forall names | IsPath(fs, inode, names) ensures IsPath(fs, inode, names + []) {
      assert names + [] == names;
    }
  }

  lemma ClimbStep(fs: Fs, inode: Inode, cur: Inode, chain: seq<Name>, n: Name)
    requires Climbed(fs, inode, cur, chain) && cur in fs.files && cur != ROOT
    requires IsEntry(fs, fs.files[cur].parent, n, cur)
    ensures Climbed(fs, inode, fs.files[cur].parent, [n] + chain)
  {
    var parent := fs.files[cur].parent;
    if HasPath(fs, inode) { PathGoesUp(fs, cur); }
    forall names | IsPath(fs, parent, names) ensures IsPath(fs, inode, names + ([n] + chain)) {
      assert (names + [n])[..|names|] == names;
      assert IsPath(fs, cur, names + [n]);
      assert names + [n] + chain == names + ([n] + chain);
    }
  }

  lemma ClimbFails(fs: Fs, inode: Inode, cur: Inode, chain: seq<Name>)
    requires Climbed(fs, inode, cur, chain) && cur in fs.files && cur != ROOT
    requires forall n :: !IsEntry(fs, fs.files[cur].parent, n, cur)
    ensures !HasPath(fs, inode)
  {
    if HasPath(fs, inode) { PathGoesUp(fs, cur); }
  }

  lemma ClimbEnds(fs: Fs, inode: Inode, chain: seq<Name>)
    requires Climbed(fs, inode, ROOT, chain) && ROOT in fs.files
    ensures IsPath(fs, inode, chain)
  {
    assert IsPath(fs, ROOT, []) && [] + chain == chain;
  }

  class Scheme {
    const name: string
    var files: map<Inode, File>
    var last: nat

    ghost function Model(): (fs: Fs)
      reads this
    {
      Fs(files, last)
    }

    constructor (name: string)
      ensures Model() == EMPTY && this.name == name
    {
      this.name := name;
      files, last := EMPTY.files, EMPTY.last;
    }

    method ResolveGeneric(parts: seq<Name>, uid: nat, gid: nat) returns (r: Outcome<Result<Inode>>)
      ensures r == Resolve(Model(), parts, uid, gid)
    {
      if ROOT !in files { return Done(Err(ENOENT)); }
      var rest, i, cur := parts, 0, ROOT;
      while i < |rest|
        invariant cur in files && i <= |rest|
        invariant ResolveFrom(Model(), rest, i, cur, uid, gid) == Resolve(Model(), parts, uid, gid)
        decreases |rest| - i
      {
        var file := files[cur];
        if file.data.Regular? { return Done(Err(ENOENT)); }
        if !Perm(file, uid, gid).x { return Done(Err(EACCES)); }
        ghost var edited := Edit(rest, i);
        if Dots(rest[i]) { rest := RemoveAt(rest, i); }
        if i >= |rest| { return Panic; }
        if rest[i] == ".." && i > 0 {
          i := i - 1;
          rest := RemoveAt(rest, i);
        }
        assert edited == Some((rest, i));
        if rest[i] !in file.data.entries { return Done(Err(ENOENT)); }
        var next := file.data.entries[rest[i]];
        if next !in files { return Done(Err(EIO)); }
        cur, i := next, i + 1;
      }
      return Done(Ok(cur));
    }

    method OpenExisting(parts: seq<Name>, flags: Flags, uid: nat, gid: nat) returns (r: Outcome<Result<Inode>>)
      modifies this
      ensures match old(F.OpenExisting(Model(), parts, flags, uid, gid))
              case Panic => r == Panic && Model() == old(Model())
              case Done((fs, result)) => r == Done(result) && Model() == fs
    {
      var found := ResolveGeneric(parts, uid, gid);
      if found.Panic? || found.value.Err? { return found; }
      var i := found.value.value;
      if i !in files { return Done(Err(EIO)); }
      var f := files[i];
      if !flags.stat && flags.directory && !f.mode.kind.DirKind? { return Done(Err(ENOTDIR)); }
      if !flags.stat && !flags.directory && f.mode.kind.DirKind? { return Done(Err(EISDIR)); }
      if !Allowed(flags.access, Perm(f, uid, gid)) { return Done(Err(EACCES)); }
      if flags.trunc && Writes(flags.access) && f.data.Directory? { return Done(Err(EBADFD)); }
      files := files[i := f.(openHandles := f.openHandles + 1)];
      return Done(Ok(i));
    }

    method Create(parts: seq<Name>, flags: Flags, uid: nat, gid: nat) returns (r: Outcome<Result<Inode>>)
      modifies this
      ensures match old(F.Create(Model(), parts, flags, uid, gid))
              case Panic => r == Panic && Model() == old(Model())
              case Done((fs, result)) => r == Done(result) && Model() == fs
    {
      if flags.stat { return Done(Err(EINVAL)); }
      var found := ResolveGeneric(if parts == [] then [] else parts[..|parts| - 1], uid, gid);
      if found.Panic? || found.value.Err? { return found; }
      if parts == [] { return Done(Err(EINVAL)); }
      if last >= USIZE_MAX { return Done(Err(ENFILE)); }
      last := last + 1;
      if flags.directory != NewKind(flags).DirKind? { return Done(Err(EINVAL)); }
      var f := NewFile(flags, found.value.value, uid, gid);
      if !Allowed(flags.access, Perm(f, uid, gid)) { return Done(Err(EACCES)); }
      files := files[last := f];
      if f.parent !in files || files[f.parent].data.Regular? { return Done(Err(EIO)); }
      var dir := files[f.parent];
      files := files[f.parent := dir.(data := Directory(dir.data.entries[parts[|parts| - 1] := last]))];
      return Done(Ok(last));
    }

    method Open(path: string, flags: Flags, uid: nat, gid: nat) returns (r: Outcome<Result<Inode>>)
      modifies this
      ensures match old(F.Open(Model(), Components(path), flags, uid, gid))
              case Panic => r == Panic && Model() == old(Model())
              case Done((fs, result)) => r == Done(result) && Model() == fs
    {
      var parts := Components(path);
      var found := ResolveGeneric(parts, 0, 0);
      if found.Panic? { return Panic; }
      if flags.create && flags.excl && found.value.Ok? { return Done(Err(EEXIST)); }
      if flags.create && !found.value.Ok? {
        r := Create(parts, flags, uid, gid);
      } else {
        r := OpenExisting(parts, flags, uid, gid);
      }
    }

    /** Prints the path of an open inode by following its parents to the root; the text must fit
        the buffer, or the write is unwrapped in vain. */
    method FPath(inode: Inode, size: nat) returns (r: Outcome<Result<string>>)
      requires Inv(Model())
      ensures match r
              case Done(Err(_)) => !HasPath(Model(), inode)
              case Done(Ok(text)) =>
                && |text| <= size
                && exists names :: IsPath(Model(), inode, names) && text == Print([TrimStart(name)] + names)
              case Panic => exists names :: IsPath(Model(), inode, names) && |Print([TrimStart(name)] + names)| > size
    {
      if inode !in files { return Done(Err(EBADFD)); }
      var cur, chain := inode, [];
      ClimbStart(Model(), inode);
      while cur != ROOT
        invariant cur in files && Climbed(Model(), inode, cur, chain)
        decreases cur
      {
        var parent := files[cur].parent;
        if parent !in files || files[parent].data.Regular? {
          ClimbFails(Model(), inode, cur, chain);
          return Done(Err(EBADFD));
        }
        var dir := files[parent].data.entries;
        if !exists n :: n in dir && dir[n] == cur {
          ClimbFails(Model(), inode, cur, chain);
          return Done(Err(ENOENT));
        }
        var n :| n in dir && dir[n] == cur;
        ClimbStep(Model(), inode, cur, chain, n);
        cur, chain := parent, [n] + chain;
      }
      ClimbEnds(Model(), inode, chain);
      var text := Print([TrimStart(name)] + chain);
      if |text| > size { return Panic; }
      return Done(Ok(text));
    }

    method OnClose(i: Inode)
      modifies this
      ensures Model() == old(F.OnClose(Model(), i))
    {
      if i !in files { return; }
      var f := files[i].(openHandles := Minus(files[i].openHandles, 1));
      files := files[i := f];
      if f.nlink == 0 && f.openHandles == 0 { files := files - {i}; }
    }

    method RemoveDentry(path: string, uid: nat, gid: nat, directory: bool) returns (r: Outcome<Result<()>>)
      modifies this
      ensures match old(F.RemoveDentry(Model(), Components(path), uid, gid, directory))
              case Panic => r == Panic && Model() == old(Model())
              case Done((fs, result)) => r == Done(result) && Model() == fs
    {
      var parts := Components(path);
      var found := ResolveGeneric(if parts == [] then [] else parts[..|parts| - 1], uid, gid);
      if found.Panic? { return Panic; }
      if found.value.Err? { return Done(Err(found.value.error)); }
      if parts == [] { return Done(Err(EINVAL)); }
      var result := RemoveEntry(found.value.value, parts[|parts| - 1], uid, gid, directory);
      return Done(result);
    }

    method RemoveEntry(parent: Inode, entry: Name, uid: nat, gid: nat, directory: bool) returns (r: Result<()>)
      modifies this
      ensures (Model(), r) == old(F.RemoveEntry(Model(), parent, entry, uid, gid, directory))
    {
      if parent !in files { return Err(EIO); }
      var dir := files[parent];
      if !Perm(dir, uid, gid).w { return Err(EACCES); }
      if dir.data.Regular? { return Err(ENOTDIR); }
      if entry !in dir.data.entries { return Err(ENOENT); }
      var i := dir.data.entries[entry];
      files := files[parent := dir.(data := Directory(dir.data.entries - {entry}))];
      r := DropInode(parent, i, directory);
    }

    method DropInode(parent: Inode, i: Inode, directory: bool) returns (r: Result<()>)
      requires parent in files
      modifies this
      ensures (Model(), r) == old(F.DropInode(Model(), parent, i, directory))
    {
      if i in files && files[i].data.Directory? {
        if !directory { return Err(EISDIR); }
        if files[i].data.entries != map[] { return Err(ENOTEMPTY); }
        files := files[parent := files[parent].(nlink := Minus(files[parent].nlink, 1))];
      }
      if i !in files { return Err(EIO); }
      if files[i].data.Regular? && directory { return Err(EISDIR); }
      files := files[i := files[i].(nlink := Minus(files[i].nlink, if files[i].data.Regular? then 1 else 2))];
      if files[i].nlink == 0 && files[i].openHandles == 0 { files := files - {i}; }
      return Ok(());
    }
  }
}
