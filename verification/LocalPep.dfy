/**
 Local-action enforcement: the nine LSM hooks over the enrolled-cgroup and deny maps, and a
 state machine over names, file contents, open descriptors and mappings whose every
 mediated step asks the hooks that guard it.

 Tasks do not change cgroup. The step alphabet is the operations the hooks mediate, stores
 through existing mappings, and the loader's writes to the two maps.
 */
module LocalPep {
  import opened Wrappers

  const EPERM := 1
  const FMODE_WRITE: bv32 := 0x2
  const MAY_WRITE: bv32 := 0x2
  const MAY_APPEND: bv32 := 0x8
  const PROT_WRITE: bv32 := 0x2
  const MAP_SHARED: bv32 := 0x1

  type Cgroup = nat
  type Ino = nat

  /** The two control maps. */
  datatype Control = Control(enrolled: set<Cgroup>, deny: set<(Cgroup, Ino)>)

  function LocalVerdict(k: Control, cg: Cgroup, ino: Ino): int {
    if cg !in k.enrolled then 0
    else if (cg, ino) in k.deny then -EPERM
    else 0
  }

  // ----- the nine hooks; ret is the verdict of the modules asked before -----------------

  function InodeUnlink(k: Control, cg: Cgroup, victim: Ino, ret: int): int {
    if ret != 0 then ret else LocalVerdict(k, cg, victim)
  }

  function PathUnlink(k: Control, cg: Cgroup, victim: Ino, ret: int): int {
    if ret != 0 then ret else LocalVerdict(k, cg, victim)
  }

  function PathTruncate(k: Control, cg: Cgroup, ino: Ino, ret: int): int {
    if ret != 0 then ret else LocalVerdict(k, cg, ino)
  }

  function FileTruncate(k: Control, cg: Cgroup, ino: Ino, ret: int): int {
    if ret != 0 then ret else LocalVerdict(k, cg, ino)
  }

  /** A rename to a fresh name reads inode 0 for the absent target. */
  function InodeRename(k: Control, cg: Cgroup, oldIno: Ino, newIno: Ino, ret: int): int {
    if ret != 0 then ret
    else
      var v := LocalVerdict(k, cg, oldIno);
      if v != 0 then v else LocalVerdict(k, cg, newIno)
  }

  function FileOpen(k: Control, cg: Cgroup, ino: Ino, fmode: bv32, ret: int): int {
    if ret != 0 then ret
    else if fmode & FMODE_WRITE == 0 then 0
    else LocalVerdict(k, cg, ino)
  }

  function BprmCheck(k: Control, cg: Cgroup, ino: Ino, ret: int): int {
    if ret != 0 then ret else LocalVerdict(k, cg, ino)
  }

  function FilePermission(k: Control, cg: Cgroup, ino: Ino, mask: bv32, ret: int): int {
    if ret != 0 then ret
    else if mask & (MAY_WRITE | MAY_APPEND) == 0 then 0
    else LocalVerdict(k, cg, ino)
  }

  function MmapFile(k: Control, cg: Cgroup, file: Option<Ino>, prot: bv32, flags: bv32, ret: int): int {
    if ret != 0 then ret
    else if file.None? then 0
    else if !(prot & PROT_WRITE != 0 && flags & MAP_SHARED != 0) then 0
    else LocalVerdict(k, cg, file.value)
  }

  /** One consultation of one hook. */
  datatype Check =
    | UnlinkInode(ino: Ino) | UnlinkPath(ino: Ino)
    | TruncatePath(ino: Ino) | TruncateFile(ino: Ino)
    | RenameInode(oldIno: Ino, newIno: Ino)
    | OpenFile(ino: Ino, fmode: bv32)
    | ExecFile(ino: Ino)
    | AccessFile(ino: Ino, mask: bv32)
    | MapFile(file: Option<Ino>, prot: bv32, flags: bv32)

  function HookVerdict(k: Control, cg: Cgroup, c: Check, ret: int): int {
    match c
    case UnlinkInode(ino) => InodeUnlink(k, cg, ino, ret)
    case UnlinkPath(ino) => PathUnlink(k, cg, ino, ret)
    case TruncatePath(ino) => PathTruncate(k, cg, ino, ret)
    case TruncateFile(ino) => FileTruncate(k, cg, ino, ret)
    case RenameInode(o, n) => InodeRename(k, cg, o, n, ret)
    case OpenFile(ino, fmode) => FileOpen(k, cg, ino, fmode, ret)
    case ExecFile(ino) => BprmCheck(k, cg, ino, ret)
    case AccessFile(ino, mask) => FilePermission(k, cg, ino, mask, ret)
    case MapFile(file, prot, flags) => MmapFile(k, cg, file, prot, flags, ret)
  }

  /** The inodes a consultation would let be destroyed, overwritten or executed; reads, and
      mappings that cannot write back, threaten none. */
  function Threatened(c: Check): set<Ino> {
    match c
    case UnlinkInode(ino) => {ino}
    case UnlinkPath(ino) => {ino}
    case TruncatePath(ino) => {ino}
    case TruncateFile(ino) => {ino}
    case RenameInode(o, n) => {o, n}
    case OpenFile(ino, fmode) => if fmode & 0x2 != 0 then {ino} else {}
    case ExecFile(ino) => {ino}
    case AccessFile(ino, mask) => if mask & 0xA != 0 then {ino} else {}
    case MapFile(file, prot, flags) =>
      if file.Some? && prot & 0x2 != 0 && flags & 0x1 != 0 then {file.value} else {}
  }

  /** Every hook denies exactly when an enrolled cgroup threatens an inode denied to it, and
      otherwise passes the earlier verdict on. */
  lemma HooksAreExact(k: Control, cg: Cgroup, c: Check, ret: int)
    ensures HookVerdict(k, cg, c, ret) ==
            if ret != 0 then ret
            else if cg in k.enrolled && exists ino :: ino in Threatened(c) && (cg, ino) in k.deny then -EPERM
            else 0
  {
    match c {
      case AccessFile(ino, mask) => assert MAY_WRITE | MAY_APPEND == 0xA;
      case _ =>
    }
    forall ino | ino in Threatened(c) && (cg, ino) in k.deny && cg in k.enrolled
      ensures ret == 0 ==> HookVerdict(k, cg, c, ret) == -EPERM
    {
      assert LocalVerdict(k, cg, ino) == -EPERM;
    }
  }

  // ----- the file world -----------------------------------------------------------------

  type Data = seq<int>

  datatype Descriptor = Descriptor(ino: Ino, fmode: bv32)

  datatype Mapping = Mapping(owner: Cgroup, ino: Ino, prot: bv32, flags: bv32) {
    predicate SharedWritable() { prot & PROT_WRITE != 0 && flags & MAP_SHARED != 0 }
  }

  datatype World = World(
    ctl: Control, names: map<string, Ino>, data: map<Ino, Data>,
    fds: map<int, Descriptor>, maps: map<int, Mapping>, executed: multiset<(Cgroup, Ino)>)

  /** Operations of a task. Descriptors may have been opened by anyone, at any time. */
  datatype Op =
    | Unlink(name: string)
    | Truncate(name: string, content: Data)
    | Ftruncate(fd: int, content: Data)
    | Rename(from: string, to: string)
    | Open(name: string, fd: int, fmode: bv32, trunc: bool)
    | Exec(name: string)
    | Write(fd: int, append: bool, content: Data)
    | Mmap(file: Option<int>, id: int, prot: bv32, flags: bv32)
    | Store(id: int, content: Data)

  datatype Step =
    | Task(cg: Cgroup, op: Op, prior: int)
    | Enroll(cg: Cgroup)
    | Forbid(cg: Cgroup, ino: Ino)
    | Unforbid(cg: Cgroup, ino: Ino)
    | Disarm

  predicate Passes(k: Control, cg: Cgroup, cs: seq<Check>, prior: int) {
    forall i :: 0 <= i < |cs| ==> HookVerdict(k, cg, cs[i], prior) == 0
  }

  /** The consultations the kernel makes before committing an operation; None when the
      operation fails for reasons of its own. */
  function Checks(w: World, cg: Cgroup, op: Op): Option<seq<Check>> {
    match op
    case Unlink(n) =>
      if n !in w.names then None else Some([UnlinkPath(w.names[n]), UnlinkInode(w.names[n])])
    case Truncate(n, _) =>
      if n !in w.names then None else Some([TruncatePath(w.names[n])])
    case Ftruncate(fd, _) =>
      if fd !in w.fds || w.fds[fd].fmode & FMODE_WRITE == 0 then None else Some([TruncateFile(w.fds[fd].ino)])
    case Rename(f, t) =>
      if f !in w.names then None
      else Some([RenameInode(w.names[f], if t in w.names then w.names[t] else 0)])
    case Open(n, _, fmode, trunc) =>
      if n !in w.names then None
      else Some([OpenFile(w.names[n], fmode)] + if trunc then [TruncatePath(w.names[n])] else [])
    case Exec(n) =>
      if n !in w.names then None else Some([ExecFile(w.names[n])])
    case Write(fd, append, _) =>
      if fd !in w.fds || w.fds[fd].fmode & FMODE_WRITE == 0 then None
      else Some([AccessFile(w.fds[fd].ino, if append then MAY_WRITE | MAY_APPEND else MAY_WRITE)])
    case Mmap(fd, _, prot, flags) =>
      if fd.None? then Some([MapFile(None, prot, flags)])
      else if fd.value !in w.fds then None
      else Some([MapFile(Some(w.fds[fd.value].ino), prot, flags)])
    case Store(id, _) =>
      if id in w.maps && w.maps[id].owner == cg then Some([]) else None
  }

  /** What a committed operation does. */
  function Commit(w: World, cg: Cgroup, op: Op): World
    requires Checks(w, cg, op).Some?
  {
    match op
    case Unlink(n) => w.(names := w.names - {n})
    case Truncate(n, content) => w.(data := w.data[w.names[n] := content])
    case Ftruncate(fd, content) => w.(data := w.data[w.fds[fd].ino := content])
    case Rename(f, t) =>
      if t in w.names && w.names[t] == w.names[f] then w else w.(names := (w.names - {f})[t := w.names[f]])
    case Open(n, fd, fmode, trunc) =>
      var v := w.(fds := w.fds[fd := Descriptor(w.names[n], fmode)]);
      if trunc then v.(data := w.data[w.names[n] := []]) else v
    case Exec(n) => w.(executed := w.executed + multiset{(cg, w.names[n])})
    case Write(fd, _, content) => w.(data := w.data[w.fds[fd].ino := content])
    case Mmap(fd, id, prot, flags) =>
      if fd.None? then w.(maps := w.maps - {id})
      else w.(maps := w.maps[id := Mapping(cg, w.fds[fd.value].ino, prot, flags)])
    case Store(id, content) =>
      if w.maps[id].SharedWritable() then w.(data := w.data[w.maps[id].ino := content]) else w
  }

  function Next(w: World, s: Step): World {
    match s
    case Task(cg, op, prior) =>
      var cs := Checks(w, cg, op);
      if cs.Some? && Passes(w.ctl, cg, cs.value, prior) then Commit(w, cg, op) else w
    case Enroll(cg) => w.(ctl := w.ctl.(enrolled := w.ctl.enrolled + {cg}))
    case Forbid(cg, ino) => w.(ctl := w.ctl.(deny := w.ctl.deny + {(cg, ino)}))
    case Unforbid(cg, ino) => w.(ctl := w.ctl.(deny := w.ctl.deny - {(cg, ino)}))
    case Disarm => w.(ctl := w.ctl.(enrolled := {}))
  }

  function Run(w: World, ss: seq<Step>): World {
    if ss == [] then w else Next(Run(w, ss[..|ss| - 1]), ss[|ss| - 1])
  }

  // ----- immutability -------------------------------------------------------------------

  /** The cgroup is governed, the inode denied to it, and it holds no mapping that could
      write the inode without a system call. */
  ghost predicate Locked(w: World, cg: Cgroup, ino: Ino) {
    && cg in w.ctl.enrolled
    && (cg, ino) in w.ctl.deny
    && forall id :: id in w.maps && w.maps[id].owner == cg && w.maps[id].ino == ino ==> !w.maps[id].SharedWritable()
  }

  /** The step does not lift the denial. */
  predicate KeepsDenial(s: Step, cg: Cgroup, ino: Ino) {
    s != Unforbid(cg, ino) && s != Disarm
  }

  /** The inode's names, contents, and executions by the cgroup are the same in both. */
  ghost predicate Untouched(w: World, v: World, cg: Cgroup, ino: Ino) {
    && (forall n :: n in w.names && w.names[n] == ino <==> n in v.names && v.names[n] == ino)
    && (ino in w.data <==> ino in v.data)
    && (ino in w.data ==> w.data[ino] == v.data[ino])
    && w.executed[(cg, ino)] == v.executed[(cg, ino)]
  }

  lemma ThreatIsRefused(k: Control, cg: Cgroup, ino: Ino, c: Check, prior: int)
    requires cg in k.enrolled && (cg, ino) in k.deny && ino in Threatened(c)
    ensures HookVerdict(k, cg, c, prior) != 0
  {
    HooksAreExact(k, cg, c, prior);
  }

  /** An operation that would change the inode consults some hook that refuses it. */
  lemma ForbiddenStepIsHarmless(w: World, cg: Cgroup, ino: Ino, op: Op, prior: int)
    requires Locked(w, cg, ino)
    ensures Untouched(w, Next(w, Task(cg, op, prior)), cg, ino)
  {
    var cs := Checks(w, cg, op);
    if cs.Some? && Passes(w.ctl, cg, cs.value, prior) {
      if Threatens(w, cg, op, ino) {
        var i :| 0 <= i < |cs.value| && ino in Threatened(cs.value[i]);
        ThreatIsRefused(w.ctl, cg, ino, cs.value[i], prior);
      }
      CommitSparesUnthreatened(w, cg, ino, op);
    }
  }

  ghost predicate Threatens(w: World, cg: Cgroup, op: Op, ino: Ino)
    requires Checks(w, cg, op).Some?
  {
    exists i :: 0 <= i < |Checks(w, cg, op).value| && ino in Threatened(Checks(w, cg, op).value[i])
  }

  lemma CommitSparesUnthreatened(w: World, cg: Cgroup, ino: Ino, op: Op)
    requires Checks(w, cg, op).Some? && Locked(w, cg, ino) && !Threatens(w, cg, op, ino)
    ensures Untouched(w, Commit(w, cg, op), cg, ino)
  {
    if op.Unlink? || op.Rename? || op.Exec? {
      assert ino !in Threatened(Checks(w, cg, op).value[0]);
    } else {
      ContentSparesUnthreatened(w, cg, ino, op);
    }
  }

  lemma ContentSparesUnthreatened(w: World, cg: Cgroup, ino: Ino, op: Op)
    requires Checks(w, cg, op).Some? && Locked(w, cg, ino) && !Threatens(w, cg, op, ino)
    requires !op.Unlink? && !op.Rename? && !op.Exec?
    ensures Untouched(w, Commit(w, cg, op), cg, ino)
  {
    var cs := Checks(w, cg, op).value;
    match op {
      case Truncate(n, _) => assert ino !in Threatened(cs[0]);
      case Ftruncate(fd, _) => assert ino !in Threatened(cs[0]);
      case Open(n, fd, fmode, trunc) => if trunc { assert ino !in Threatened(cs[1]); }
      case Write(fd, append, _) =>
        assert (MAY_WRITE | MAY_APPEND) & 0xA != 0 && MAY_WRITE & 0xA != 0;
        assert ino !in Threatened(cs[0]);
      case Mmap(fd, id, prot, flags) =>
      case Store(id, content) =>
    }
  }

  /** Only mmap changes the mappings, and no operation changes the control maps. */
  lemma MapsChangeByMmap(w: World, a: Cgroup, op: Op)
    requires Checks(w, a, op).Some?
    ensures Commit(w, a, op).ctl == w.ctl
    ensures !op.Mmap? ==> Commit(w, a, op).maps == w.maps
  {
  }

  lemma MmapKeepsLock(w: World, cg: Cgroup, ino: Ino, a: Cgroup, op: Op, prior: int)
    requires Locked(w, cg, ino) && op.Mmap? && Checks(w, a, op).Some? && Passes(w.ctl, a, Checks(w, a, op).value, prior)
    ensures Locked(Commit(w, a, op), cg, ino)
  {
    var cs := Checks(w, a, op).value;
    if a == cg && op.file.Some? {
      assert HookVerdict(w.ctl, a, cs[0], prior) == 0;
      if ino in Threatened(cs[0]) {
        ThreatIsRefused(w.ctl, cg, ino, cs[0], prior);
      }
    }
  }

  /** No step by anyone, short of lifting the denial, hands the cgroup a shared-writable
      mapping of the inode. */
  lemma LockPersists(w: World, cg: Cgroup, ino: Ino, s: Step)
    requires Locked(w, cg, ino) && KeepsDenial(s, cg, ino)
    ensures Locked(Next(w, s), cg, ino)
  {
    if s.Task? {
      var cs := Checks(w, s.cg, s.op);
      if cs.Some? && Passes(w.ctl, s.cg, cs.value, s.prior) {
        MapsChangeByMmap(w, s.cg, s.op);
        if s.op.Mmap? {
          MmapKeepsLock(w, cg, ino, s.cg, s.op, s.prior);
        }
      }
    }
  }

  lemma {:induction false} LockedThroughout(w: World, cg: Cgroup, ino: Ino, ss: seq<Step>)
    requires Locked(w, cg, ino) && forall s :: s in ss ==> KeepsDenial(s, cg, ino)
    ensures Locked(Run(w, ss), cg, ino)
  {
    if ss != [] {
      assert ss[|ss| - 1] in ss && forall s :: s in ss[..|ss| - 1] ==> s in ss;
      LockedThroughout(w, cg, ino, ss[..|ss| - 1]);
      LockPersists(Run(w, ss[..|ss| - 1]), cg, ino, ss[|ss| - 1]);
    }
  }

  /** Whole-run immutability: over every interleaving with other tasks and with the loader,
      until the denial is lifted, no operation of the cgroup unlinks, renames, truncates,
      overwrites or executes the inode, and it never gains a shared-writable mapping. */
  lemma WholeRunImmutability(w: World, cg: Cgroup, ino: Ino, ss: seq<Step>, i: nat)
    requires Locked(w, cg, ino) && forall s :: s in ss ==> KeepsDenial(s, cg, ino)
    requires i < |ss| && ss[i].Task? && ss[i].cg == cg
    ensures Untouched(Run(w, ss[..i]), Run(w, ss[..i + 1]), cg, ino)
    ensures Locked(Run(w, ss), cg, ino)
  {
    LockedThroughout(w, cg, ino, ss);
    assert forall s :: s in ss[..i] ==> s in ss;
    LockedThroughout(w, cg, ino, ss[..i]);
    assert ss[..i + 1][..i] == ss[..i] && ss[..i + 1][i] == ss[i];
    ForbiddenStepIsHarmless(Run(w, ss[..i]), cg, ino, ss[i].op, ss[i].prior);
  }

  lemma UntouchedTransitive(a: World, b: World, c: World, cg: Cgroup, ino: Ino)
    requires Untouched(a, b, cg, ino) && Untouched(b, c, cg, ino)
    ensures Untouched(a, c, cg, ino)
  {
    forall n ensures n in a.names && a.names[n] == ino <==> n in c.names && c.names[n] == ino {
      assert n in a.names && a.names[n] == ino <==> n in b.names && b.names[n] == ino;
    }
  }

  /** When the cgroup acts alone beside the loader, the inode ends the run as it began. */
  lemma {:induction false} AloneItIsImmutable(w: World, cg: Cgroup, ino: Ino, ss: seq<Step>)
    requires Locked(w, cg, ino)
    requires forall s :: s in ss ==> KeepsDenial(s, cg, ino) && (s.Task? ==> s.cg == cg)
    ensures Untouched(w, Run(w, ss), cg, ino)
  {
    if ss != [] {
      var most, last := ss[..|ss| - 1], ss[|ss| - 1];
      assert last in ss && forall s :: s in most ==> s in ss;
      AloneItIsImmutable(w, cg, ino, most);
      LockedThroughout(w, cg, ino, most);
      if last.Task? {
        ForbiddenStepIsHarmless(Run(w, most), cg, ino, last.op, last.prior);
      }
      UntouchedTransitive(w, Run(w, most), Run(w, ss), cg, ino);
    }
  }

  /** No step of the cgroup, in any run that keeps the denial, touches the inode. */
  ghost predicate ImmutableForever(w: World, cg: Cgroup, ino: Ino) {
    forall ss: seq<Step>, i: nat :: HarmlessAt(w, cg, ino, ss, i)
  }

  ghost predicate HarmlessAt(w: World, cg: Cgroup, ino: Ino, ss: seq<Step>, i: nat) {
    i < |ss| && ss[i].Task? && ss[i].cg == cg && (forall s :: s in ss ==> KeepsDenial(s, cg, ino)) ==>
      Untouched(Run(w, ss[..i]), Run(w, ss[..i + 1]), cg, ino)
  }

  /** A shared-writable mapping of the inode lets the very next store change it. */
  lemma MappingWrites(w: World, cg: Cgroup, ino: Ino, id: int, prior: int)
    requires id in w.maps && w.maps[id].owner == cg && w.maps[id].ino == ino && w.maps[id].SharedWritable()
    ensures var content := if ino in w.data then w.data[ino] + [0] else [];
            !Untouched(w, Next(w, Task(cg, Store(id, content), prior)), cg, ino)
  {
    var content := if ino in w.data then w.data[ino] + [0] else [];
    var v := Next(w, Task(cg, Store(id, content), prior));
    assert Checks(w, cg, Store(id, content)) == Some([]);
    assert v.data == w.data[ino := content];
    assert ino in w.data ==> |v.data[ino]| != |w.data[ino]|;
  }

  /** Exactly when a denial holds for good: of a governed cgroup and an inode denied to it, the
      inode is immutable over every run if and only if the cgroup holds no shared-writable
      mapping of it at the start; and one step already tells. */
  lemma ImmutableIffUnmapped(w: World, cg: Cgroup, ino: Ino)
    requires cg in w.ctl.enrolled && (cg, ino) in w.ctl.deny
    ensures ImmutableForever(w, cg, ino) <==> Locked(w, cg, ino)
    ensures Locked(w, cg, ino) <==> forall op, prior :: Untouched(w, Next(w, Task(cg, op, prior)), cg, ino)
  {
    if Locked(w, cg, ino) {
      forall ss: seq<Step>, i: nat
        ensures HarmlessAt(w, cg, ino, ss, i)
      {
        if i < |ss| && ss[i].Task? && ss[i].cg == cg && (forall s :: s in ss ==> KeepsDenial(s, cg, ino)) {
          WholeRunImmutability(w, cg, ino, ss, i);
        }
      }
      forall op, prior
        ensures Untouched(w, Next(w, Task(cg, op, prior)), cg, ino)
      {
        ForbiddenStepIsHarmless(w, cg, ino, op, prior);
      }
    } else {
      var id :| id in w.maps && w.maps[id].owner == cg && w.maps[id].ino == ino && w.maps[id].SharedWritable();
      var step := Task(cg, Store(id, if ino in w.data then w.data[ino] + [0] else []), 0);
      MappingWrites(w, cg, ino, id, 0);
      var ss := [step];
      assert ss[..0] == [] && ss[..1] == ss && ss[..1][..0] == [];
      assert Run(w, ss[..0]) == w && Run(w, ss[..1]) == Next(w, step);
      assert !HarmlessAt(w, cg, ino, ss, 0);
    }
  }

  /** An ungoverned world with one file, and the steps that map it before it is denied. */
  function OpenWorld(ino: Ino): World {
    World(Control({}, {}), map["f" := ino], map[ino := [1]], map[], map[], multiset{})
  }

  function MapThenDeny(cg: Cgroup, ino: Ino): seq<Step> {
    [Task(cg, Open("f", 3, FMODE_WRITE, false), 0), Task(cg, Mmap(Some(3), 0, PROT_WRITE, MAP_SHARED), 0),
     Enroll(cg), Forbid(cg, ino)]
  }

  lemma RunFour(w: World, a: Step, b: Step, c: Step, d: Step)
    ensures Run(w, [a, b, c, d]) == Next(Next(Next(Next(w, a), b), c), d)
  {
    var s1 := [] + [a];
    var s2 := s1 + [b];
    var s3 := s2 + [c];
    RunPush(w, [], a);
    RunPush(w, s1, b);
    RunPush(w, s2, c);
    RunPush(w, s3, d);
    assert [a, b, c, d] == s3 + [d];
  }

  lemma RunPush(w: World, ss: seq<Step>, s: Step)
    ensures Run(w, ss + [s]) == Next(Run(w, ss), s)
  {
    assert (ss + [s])[..|ss|] == ss;
  }

  /** Such a mapping can be there: a file opened and mapped before the cgroup is enrolled and the
      inode denied is denied but not locked, and the next store still writes it. */
  lemma EarlierMappingStillWrites(cg: Cgroup, ino: Ino)
    ensures var w := Run(OpenWorld(ino), MapThenDeny(cg, ino));
            && cg in w.ctl.enrolled && (cg, ino) in w.ctl.deny && !Locked(w, cg, ino)
            && ino in w.data && !Untouched(w, Next(w, Task(cg, Store(0, w.data[ino] + [0]), 0)), cg, ino)
  {
    var ss := MapThenDeny(cg, ino);
    RunFour(OpenWorld(ino), ss[0], ss[1], ss[2], ss[3]);
    assert ss == [ss[0], ss[1], ss[2], ss[3]];
    var w1 := Next(OpenWorld(ino), ss[0]);
    assert w1.fds == map[3 := Descriptor(ino, FMODE_WRITE)];
    var w2 := Next(w1, ss[1]);
    assert w2.maps == map[0 := Mapping(cg, ino, PROT_WRITE, MAP_SHARED)];
    var w := Run(OpenWorld(ino), ss);
    assert w.maps == w2.maps && w.data == map[ino := [1]];
    assert w.maps[0].SharedWritable();
    MappingWrites(w, cg, ino, 0, 0);
  }

  // ----- the kill switch ----------------------------------------------------------------

  /** With nothing enrolled every hook returns the verdict it was given. */
  lemma DisarmedIsInert(k: Control, cg: Cgroup, c: Check, ret: int)
    requires k.enrolled == {}
    ensures HookVerdict(k, cg, c, ret) == ret
  {
    HooksAreExact(k, cg, c, ret);
  }

  /** Re-enrolling a cgroup after the kill switch restores exactly its denials. */
  lemma ReenrollRestores(w: World, cg: Cgroup, c: Check, ret: int)
    requires cg in w.ctl.enrolled
    ensures HookVerdict(Next(Next(w, Disarm), Enroll(cg)).ctl, cg, c, ret) == HookVerdict(w.ctl, cg, c, ret)
  {
    HooksAreExact(Next(Next(w, Disarm), Enroll(cg)).ctl, cg, c, ret);
    HooksAreExact(w.ctl, cg, c, ret);
  }
}
