/** The filesystem as a value: names for inodes, inode contents, and what a power loss may undo.

    A directory entry of a file that was changed and not yet fsynced is `lingering`: after a power loss it
    may show its present value or any value it had since the last fsync of its directory. A directory
    that was made is `loose` until its parent is fsynced: a power loss may take it, with all it contains. */
module Disks {
  import opened Basics

  /** A directory by its components from the top, or one of the hidden directories that a run makes for its
      staging files below a library root: one for all runs, in it one for the run, in it one for an item. */
  datatype Dir =
    | Folder(path: seq<string>)
    | StageTop(root: seq<string>)
    | StageRun(root: seq<string>)
    | StageArea(root: seq<string>, item: nat)

  const TOP := Folder([])

  function Parent(g: Dir): Dir {
    match g
    case Folder(path) => if path == [] then g else Folder(path[..|path| - 1])
    case StageTop(root) => Folder(root)
    case StageRun(root) => StageTop(root)
    case StageArea(root, _) => StageRun(root)
  }

  function Depth(g: Dir): nat {
    match g
    case Folder(path) => |path|
    case StageTop(root) => |root| + 1
    case StageRun(root) => |root| + 2
    case StageArea(root, _) => |root| + 3
  }

  /** `x` is `g` or one of the directories that `g` lies in. */
  predicate Above(x: Dir, g: Dir)
    decreases Depth(g)
  {
    x == g || (g != TOP && Above(x, Parent(g)))
  }

  /** `Planned` names come from an approved plan, `Random` ones from the process itself. */
  datatype Name = Planned(text: string) | Random(serial: nat)

  datatype Path = Entry(dir: Dir, name: Name)

  /** `ours` marks the inodes that the apply process created. */
  datatype File = File(content: Bytes, mode: nat, synced: bool, ours: bool)

  /** `folders` has the mode of each directory that exists. */
  datatype Disk = Disk(
    names: map<Path, nat>,
    files: seq<File>,
    lingering: map<Path, set<Option<nat>>>,
    folders: map<Dir, nat>,
    loose: set<Dir>)

  datatype Op =
    | Create(path: Path)
    | Write(path: Path, content: Bytes)
    | Chmod(path: Path, mode: nat)
    | SyncFile(path: Path)
    | SyncDir(dir: Dir)
    | Link(from: Path, path: Path)
    | Unlink(path: Path)
    | MakeDir(folder: Dir)
    | ChmodDir(folder: Dir, mode: nat)
    | RemoveDir(folder: Dir)

  /** Operations on one file or its name. */
  predicate OnFile(op: Op) {
    !op.SyncDir? && !op.MakeDir? && !op.ChmodDir? && !op.RemoveDir?
  }

  const PRIVATE_MODE: nat := 384 // 0600
  const NEW_FOLDER_MODE: nat := 511 // 0777, before the process's umask

  function Lookup(d: Disk, p: Path): Option<nat> {
    if p in d.names then Some(d.names[p]) else None
  }

  function Lingering(d: Disk, p: Path): set<Option<nat>> {
    if p in d.lingering then d.lingering[p] else {}
  }

  /** Directories lie in directories, and files too. */
  ghost predicate TreeFormed(d: Disk) {
    && TOP in d.folders && TOP !in d.loose && d.loose <= d.folders.Keys
    && (forall g :: g in d.folders ==> Parent(g) in d.folders)
    && (forall p :: p in d.names ==> p.dir in d.folders)
  }

  ghost predicate WellFormed(d: Disk) {
    && TreeFormed(d)
    && (forall p :: p in d.names ==> d.names[p] < |d.files|)
    && (forall p, i: nat :: p in d.lingering && Some(i) in d.lingering[p] ==> i < |d.files|)
  }

  predicate Holds(d: Disk, p: Path, content: Bytes) {
    p in d.names && d.names[p] < |d.files| && d.files[d.names[p]].content == content
  }

  function Content(d: Disk, p: Path): Bytes
    requires WellFormed(d) && p in d.names
  {
    d.files[d.names[p]].content
  }

  /** `p` names inode `i` now, or may name it after a power loss. */
  ghost predicate Might(d: Disk, p: Path, i: nat) {
    Lookup(d, p) == Some(i) || Some(i) in Lingering(d, p)
  }

  ghost predicate Durable(d: Disk, p: Path) {
    Lingering(d, p) <= {Lookup(d, p)}
  }

  /** A power loss can take neither `g` nor a directory that it lies in. */
  ghost predicate Rooted(d: Disk, g: Dir) {
    forall x :: x in d.loose ==> !Above(x, g)
  }

  /** A name that, as long as its directory is there, survives a power loss together with the bytes it names. */
  ghost predicate Secured(d: Disk, p: Path) {
    p in d.names && d.names[p] < |d.files| && Durable(d, p) && d.files[d.names[p]].synced
  }

  /** A name that survives every power loss together with the bytes it names. */
  ghost predicate Fast(d: Disk, p: Path) {
    Secured(d, p) && Rooted(d, p.dir)
  }

  /** Everything visible is durable: the situation right after a power loss. */
  ghost predicate Settled(d: Disk) {
    && (forall p :: p in d.lingering ==> Durable(d, p))
    && (forall f :: f in d.files ==> f.synced)
    && d.loose == {}
  }

  /** The system calls' own conditions. link(2) refuses an existing name, rmdir(2) a directory in use. */
  predicate Possible(d: Disk, op: Op) {
    match op
    case Create(p) => p !in d.names && p.dir in d.folders
    case Write(p, _) => p in d.names && d.names[p] < |d.files|
    case Chmod(p, _) => p in d.names && d.names[p] < |d.files|
    case SyncFile(p) => p in d.names && d.names[p] < |d.files|
    case SyncDir(_) => true
    case Link(from, p) => from in d.names && p !in d.names && p.dir in d.folders
    case Unlink(p) => p in d.names
    case MakeDir(g) => g !in d.folders && Parent(g) in d.folders
    case ChmodDir(g, _) => g in d.folders
    case RemoveDir(g) =>
      && g in d.folders && g != TOP
      && (forall p :: p in d.names ==> p.dir != g)
      && (forall x :: x in d.folders ==> x == TOP || Parent(x) != g)
  }

  function Rebind(d: Disk, p: Path, to: Option<nat>): Disk {
    d.(names := if to.Some? then d.names[p := to.value] else d.names - {p},
       lingering := d.lingering[p := Lingering(d, p) + {Lookup(d, p)}])
  }

  function Perform(d: Disk, op: Op): Disk
    requires Possible(d, op)
  {
    match op
    case Create(p) => Rebind(d.(files := d.files + [File([], PRIVATE_MODE, false, true)]), p, Some(|d.files|))
    case Write(p, c) => d.(files := d.files[d.names[p] := d.files[d.names[p]].(content := c, synced := false)])
    case Chmod(p, m) => d.(files := d.files[d.names[p] := d.files[d.names[p]].(mode := m, synced := false)])
    case SyncFile(p) => d.(files := d.files[d.names[p] := d.files[d.names[p]].(synced := true)])
    case SyncDir(dir) =>
      d.(lingering := map p | p in d.lingering && p.dir != dir :: d.lingering[p],
         loose := set g | g in d.loose && Parent(g) != dir)
    case Link(from, p) => Rebind(d, p, Some(d.names[from]))
    case Unlink(p) => Rebind(d, p, None)
    case MakeDir(g) => d.(folders := d.folders[g := NEW_FOLDER_MODE], loose := d.loose + {g})
    case ChmodDir(g, m) => d.(folders := d.folders[g := m])
    case RemoveDir(g) => d.(folders := d.folders - {g}, loose := d.loose - {g})
  }

  /** Power is lost in `d` and the machine comes back showing `after`: any loose directories may be gone
      with what they contain, and every other name shows one of the values it may have. */
  ghost predicate PowerLoss(d: Disk, after: Disk) {
    && |after.files| == |d.files|
    && (forall i :: 0 <= i < |d.files| ==>
         && after.files[i].ours == d.files[i].ours
         && after.files[i].synced
         && (d.files[i].synced ==> after.files[i] == d.files[i]))
    && (forall p ::
         || Lookup(after, p) == Lookup(d, p) || Lookup(after, p) in Lingering(d, p)
         || (Lookup(after, p) == None && p.dir !in after.folders))
    && TreeFormed(after) && after.lingering == map[] && after.loose == {}
    && after.folders.Keys <= d.folders.Keys
    && (forall g :: g in d.folders && Rooted(d, g) ==> g in after.folders && after.folders[g] == d.folders[g])
  }

  /** What other programs may do while the process is not running a call: anything to files
      that are not the run's, and removing or replacing any planned name (published ones too),
      and making or removing directories, but not reaching into the run's private names and hidden
      directories or rewriting its inodes. */
  ghost predicate Outside(d: Disk, after: Disk) {
    && WellFormed(after)
    && |d.files| <= |after.files|
    && (forall i :: 0 <= i < |d.files| ==> after.files[i].ours == d.files[i].ours)
    && (forall i :: 0 <= i < |d.files| && d.files[i].ours ==> after.files[i] == d.files[i])
    && (forall i :: |d.files| <= i < |after.files| ==> !after.files[i].ours)
    && (forall p: Path :: p.name.Random? ==> Lookup(after, p) == Lookup(d, p) && Lingering(after, p) == Lingering(d, p))
    && (forall g: Dir :: !g.Folder? ==>
         && (g in after.folders <==> g in d.folders) && (g in after.loose <==> g in d.loose))
    && (forall p: Path, i: nat :: Might(after, p, i) ==> Might(d, p, i) || !after.files[i].ours)
  }
}
