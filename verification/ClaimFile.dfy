/**
 Publication and retirement of the claim-code file: two directory entries,
 inodes with link counts, and a process that may stop between any two system
 calls or in the middle of a write.
 */
module ClaimFile {
  import opened Prelude
  import opened ClaimCode

  const PRIVATE_MODE := 0x180 // 0600
  const MAX_READ: nat := COMMAND_LENGTH + 1

  datatype Owner = Owner(uid: int, gid: int)

  /** The directory's owner and the process's own identity. */
  datatype Ids = Ids(expected: Owner, service: Owner)

  predicate IsRoot(ids: Ids) {
    ids.service.uid == 0
  }

  /** A process other than root must run as the directory's user; the manager refuses to exist otherwise. */
  predicate Admitted(ids: Ids) {
    IsRoot(ids) || ids.service.uid == ids.expected.uid
  }

  datatype Inode = Inode(regular: bool, mode: int, owner: Owner, links: int, bytes: string)

  datatype Dir = Dir(target: Option<int>, temp: Option<int>, inodes: map<int, Inode>)

  const EMPTY := Dir(None, None, map[])

  function Links(d: Dir, i: int): int {
    (if d.target == Some(i) then 1 else 0) + (if d.temp == Some(i) then 1 else 0)
  }

  /** Every entry has an inode, and every inode counts exactly the entries that name it. */
  predicate WellLinked(d: Dir) {
    && (d.target.Some? ==> d.target.value in d.inodes)
    && (d.temp.Some? ==> d.temp.value in d.inodes)
    && forall i :: i in d.inodes ==> 1 <= d.inodes[i].links == Links(d, i)
  }

  // ----- inspection -----------------------------------------------------------------------

  datatype Entry = Entry(ino: int, links: int, exact: bool)

  datatype Inspection = Missing | Unsafe | Present(entry: Entry)

  function Inspect(ids: Ids, cmd: string, d: Dir, name: Option<int>, temporary: bool): Inspection {
    if name.None? then Missing
    else if name.value !in d.inodes then Unsafe
    else
      var stat := d.inodes[name.value];
      var expectedOwner := stat.owner == ids.expected;
      if !stat.regular || stat.mode != PRIVATE_MODE || stat.links <= 0 || stat.links > 2 || |stat.bytes| > MAX_READ
        then Unsafe
      else if !(expectedOwner || (temporary && stat.owner == ids.service && stat.links == 1)) then Unsafe
      else if stat.bytes == cmd then
        if expectedOwner then Present(Entry(name.value, stat.links, true)) else Unsafe
      else if temporary && |stat.bytes| < |cmd| && stat.bytes <= cmd then Present(Entry(name.value, stat.links, false))
      else Unsafe
  }

  predicate ValidPair(target: Inspection, temp: Inspection) {
    match target
    case Unsafe => false
    case Missing => temp.Missing? || (temp.Present? && temp.entry.links == 1)
    case Present(t) =>
      && t.exact
      && match temp
         case Unsafe => false
         case Missing => t.links == 1
         case Present(p) =>
           if p.ino == t.ino then t.links == 2 && p.links == 2 && p.exact else t.links == 1 && p.links == 1
  }

  /** What every run checks before it touches anything. */
  predicate Accepted(ids: Ids, cmd: string, d: Dir) {
    ValidPair(Inspect(ids, cmd, d, d.target, false), Inspect(ids, cmd, d, d.temp, true))
  }

  predicate Safe(ids: Ids, cmd: string, d: Dir) {
    WellLinked(d) && Accepted(ids, cmd, d)
  }

  // ----- system calls ------------------------------------------------------------------------

  function Drop(inodes: map<int, Inode>, i: int): map<int, Inode> {
    if i !in inodes then inodes
    else if inodes[i].links <= 1 then inodes - {i}
    else inodes[i := inodes[i].(links := inodes[i].links - 1)]
  }

  function UnlinkTarget(d: Dir): Dir {
    if d.target.None? then d else Dir(None, d.temp, Drop(d.inodes, d.target.value))
  }

  function UnlinkTemp(d: Dir): Dir {
    if d.temp.None? then d else Dir(d.target, None, Drop(d.inodes, d.temp.value))
  }

  function CreateTemp(d: Dir, ino: int, owner: Owner): Dir {
    Dir(d.target, Some(ino), d.inodes[ino := Inode(true, PRIVATE_MODE, owner, 1, "")])
  }

  function ChangeOwner(d: Dir, ino: int, owner: Owner): Dir
    requires ino in d.inodes
  {
    d.(inodes := d.inodes[ino := d.inodes[ino].(owner := owner)])
  }

  function Append(d: Dir, ino: int, chunk: string): Dir
    requires ino in d.inodes
  {
    d.(inodes := d.inodes[ino := d.inodes[ino].(bytes := d.inodes[ino].bytes + chunk)])
  }

  function LinkTarget(d: Dir, ino: int): Dir
    requires ino in d.inodes
  {
    Dir(Some(ino), d.temp, d.inodes[ino := d.inodes[ino].(links := d.inodes[ino].links + 1)])
  }

  // ----- the two runs, as the directories they pass through --------------------------------------

  /** What the kernel chooses: the new inode, and how much of each write it takes. */
  datatype Kernel = Kernel(ino: int, accept: nat -> nat)

  function Took(k: Kernel, cmd: string, offset: nat): nat
    requires offset <= |cmd|
  {
    var left := |cmd| - offset;
    if k.accept(offset) < left then k.accept(offset) else left
  }

  /** The directories after each write; a write that takes nothing is an error. */
  function Writes(k: Kernel, cmd: string, d: Dir, offset: nat): seq<Dir>
    requires offset <= |cmd| && k.ino in d.inodes
    decreases |cmd| - offset
  {
    if offset == |cmd| || Took(k, cmd, offset) == 0 then []
    else
      var n := Took(k, cmd, offset);
      var t := Append(d, k.ino, cmd[offset..offset + n]);
      [t] + Writes(k, cmd, t, offset + n)
  }

  /** How many bytes the writes get out in the end. */
  function Reach(k: Kernel, cmd: string, offset: nat): (reached: nat)
    requires offset <= |cmd|
    ensures offset <= reached <= |cmd|
    decreases |cmd| - offset
  {
    if offset == |cmd| || Took(k, cmd, offset) == 0 then offset else Reach(k, cmd, offset + Took(k, cmd, offset))
  }

  function Final(d: Dir, more: seq<Dir>): Dir {
    if more == [] then d else more[|more| - 1]
  }

  lemma {:induction false} WritesKeepInode(k: Kernel, cmd: string, d: Dir, offset: nat)
    requires offset <= |cmd| && k.ino in d.inodes
    ensures k.ino in Final(d, Writes(k, cmd, d, offset)).inodes
    decreases |cmd| - offset
  {
    if offset != |cmd| && Took(k, cmd, offset) != 0 {
      var n := Took(k, cmd, offset);
      var t := Append(d, k.ino, cmd[offset..offset + n]);
      WritesKeepInode(k, cmd, t, offset + n);
      var rest := Writes(k, cmd, t, offset + n);
      assert Final(d, [t] + rest) == Final(t, rest);
    }
  }

  function Publish(k: Kernel, cmd: string, d: Dir): seq<Dir>
    requires k.ino in d.inodes
  {
    var writes := Writes(k, cmd, d, 0);
    if Reach(k, cmd, 0) < |cmd| then writes
    else
      WritesKeepInode(k, cmd, d, 0);
      var published := LinkTarget(Final(d, writes), k.ino);
      writes + [published, UnlinkTemp(published)]
  }

  /** A new file belongs to the process; root hands it over, and the owner is then checked. */
  function Create(ids: Ids, k: Kernel, cmd: string, d: Dir): seq<Dir> {
    var created := CreateTemp(d, k.ino, ids.service);
    if IsRoot(ids) then
      var owned := ChangeOwner(created, k.ino, ids.expected);
      [created, owned] + Publish(k, cmd, owned)
    else if ids.service != ids.expected then [created]
    else [created] + Publish(k, cmd, created)
  }

  /** The directories an unclaimed run passes through after `d`. */
  function UnclaimedRun(ids: Ids, k: Kernel, cmd: string, d: Dir): seq<Dir> {
    if !Admitted(ids) || !Accepted(ids, cmd, d) then []
    else if d.target.Some? then (if d.temp.Some? then [UnlinkTemp(d)] else [])
    else if d.temp.Some? then [UnlinkTemp(d)] + Create(ids, k, cmd, UnlinkTemp(d))
    else Create(ids, k, cmd, d)
  }

  /** The directories a claimed run passes through after `d`. */
  function ClaimedRun(ids: Ids, cmd: string, d: Dir): seq<Dir> {
    if !Admitted(ids) || !Accepted(ids, cmd, d) then []
    else
      var first := UnlinkTarget(d);
      (if d.target.Some? then [first] else []) + (if d.temp.Some? then [UnlinkTemp(first)] else [])
  }

  // ----- the safe directories, one by one ------------------------------------------------------------

  function File(owner: Owner, links: int, bytes: string): Inode {
    Inode(true, PRIVATE_MODE, owner, links, bytes)
  }

  /** A temporary file holding a prefix of the command; only a complete one must already be handed over. */
  predicate IsDraft(ids: Ids, cmd: string, f: Inode) {
    && f == File(f.owner, 1, f.bytes) && f.bytes <= cmd
    && (f.owner == ids.expected || (f.owner == ids.service && f.bytes != cmd))
  }

  predicate Draft(ids: Ids, cmd: string, d: Dir) {
    d.target.None? && d.temp.Some? && d.inodes.Keys == {d.temp.value} && IsDraft(ids, cmd, d.inodes[d.temp.value])
  }

  predicate Published(ids: Ids, cmd: string, d: Dir) {
    && d.target.Some? && d.temp.None?
    && d.inodes == map[d.target.value := File(ids.expected, 1, cmd)]
  }

  predicate Doubled(ids: Ids, cmd: string, d: Dir) {
    && d.target.Some? && d.temp == d.target
    && d.inodes == map[d.target.value := File(ids.expected, 2, cmd)]
  }

  predicate Apart(ids: Ids, cmd: string, d: Dir) {
    && d.target.Some? && d.temp.Some? && d.target != d.temp
    && d.inodes.Keys == {d.target.value, d.temp.value}
    && d.inodes[d.target.value] == File(ids.expected, 1, cmd)
    && IsDraft(ids, cmd, d.inodes[d.temp.value])
  }

  /** The inspection accepts exactly these five shapes of a well-linked directory. */
  lemma SafeShapes(ids: Ids, cmd: string, d: Dir)
    requires |cmd| == COMMAND_LENGTH
    ensures Safe(ids, cmd, d) <==>
            d == EMPTY || Draft(ids, cmd, d) || Published(ids, cmd, d) || Doubled(ids, cmd, d) || Apart(ids, cmd, d)
  {
    if Safe(ids, cmd, d) {
      LinkedInodes(d);
      ShapeOfSafe(ids, cmd, d);
    }
  }

  lemma LinkedInodes(d: Dir)
    requires WellLinked(d)
    ensures d.inodes.Keys
            == (if d.target.Some? then {d.target.value} else {}) + (if d.temp.Some? then {d.temp.value} else {})
  {
    forall i | i in d.inodes ensures d.target == Some(i) || d.temp == Some(i) {
      assert 1 <= Links(d, i);
    }
  }

  lemma ShapeOfSafe(ids: Ids, cmd: string, d: Dir)
    requires |cmd| == COMMAND_LENGTH && Safe(ids, cmd, d)
    requires d.inodes.Keys
             == (if d.target.Some? then {d.target.value} else {}) + (if d.temp.Some? then {d.temp.value} else {})
    ensures d == EMPTY || Draft(ids, cmd, d) || Published(ids, cmd, d) || Doubled(ids, cmd, d) || Apart(ids, cmd, d)
  {
    if d.target.None? && d.temp.None? {
      assert d.inodes == map[];
    } else if d.target.Some? && (d.temp.None? || d.temp == d.target) {
      var i := d.target.value;
      assert d.inodes.Keys == {i};
      assert d.inodes == map[i := d.inodes[i]];
    }
  }
}
