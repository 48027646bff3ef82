/** Crash safety of the claim-code file over every history of interrupted runs. */
module ClaimFileRuns {
  import opened Prelude
  import opened ClaimCode
  import opened ClaimFile

  /** The kernel takes at least one byte of every write. */
  ghost predicate Accepting(k: Kernel) {
    forall offset: nat :: 1 <= k.accept(offset)
  }

  /** The process can create a file that belongs to the directory's owner. */
  predicate CanPublish(ids: Ids) {
    IsRoot(ids) || ids.service == ids.expected
  }

  /** A lone temporary file: handed over it may hold any prefix of the command, before that it is empty. */
  predicate Stub(expected: Owner, cmd: string, d: Dir) {
    && d.target.None? && d.temp.Some? && d.inodes.Keys == {d.temp.value}
    && var f := d.inodes[d.temp.value];
       f == File(f.owner, 1, f.bytes) && f.bytes <= cmd && (f.owner == expected || f.bytes == "")
  }

  /** What runs of any identity may leave behind. */
  predicate Leftover(expected: Owner, cmd: string, d: Dir) {
    var ids := Ids(expected, expected);
    d == EMPTY || Stub(expected, cmd, d) || Published(ids, cmd, d) || Doubled(ids, cmd, d)
  }

  /** Every directory passes the inspection and is one that runs leave behind. */
  ghost predicate AllSafe(ids: Ids, cmd: string, dirs: seq<Dir>) {
    forall i :: 0 <= i < |dirs| ==> Safe(ids, cmd, dirs[i]) && Leftover(ids.expected, cmd, dirs[i])
  }

  /** The directory while the run's own temporary file is being filled. */
  function Filling(ids: Ids, ino: int, bytes: string): Dir {
    Dir(None, Some(ino), map[ino := File(ids.expected, 1, bytes)])
  }

  /** The run's own temporary file holds a prefix of the command. */
  predicate IsFilling(ids: Ids, cmd: string, ino: int, d: Dir) {
    ino in d.inodes && d.inodes[ino].bytes <= cmd && d == Filling(ids, ino, d.inodes[ino].bytes)
  }

  lemma FillingIsSafe(ids: Ids, cmd: string, ino: int, d: Dir)
    requires |cmd| == COMMAND_LENGTH && IsFilling(ids, cmd, ino, d)
    ensures Safe(ids, cmd, d) && Leftover(ids.expected, cmd, d)
  {
    SafeShapes(ids, cmd, d);
  }

  lemma WriteFills(ids: Ids, cmd: string, ino: int, d: Dir, n: nat)
    requires IsFilling(ids, cmd, ino, d) && |d.inodes[ino].bytes| + n <= |cmd|
    ensures var offset := |d.inodes[ino].bytes|;
            var t := Append(d, ino, cmd[offset..offset + n]);
            IsFilling(ids, cmd, ino, t) && |t.inodes[ino].bytes| == offset + n
  {
    var bytes := d.inodes[ino].bytes;
    assert bytes == cmd[..|bytes|];
    assert bytes + cmd[|bytes|..|bytes| + n] == cmd[..|bytes| + n];
  }

  lemma {:induction false} WritesFill(ids: Ids, k: Kernel, cmd: string, d: Dir)
    requires IsFilling(ids, cmd, k.ino, d)
    ensures var writes := Writes(k, cmd, d, |d.inodes[k.ino].bytes|);
            && (forall i :: 0 <= i < |writes| ==> IsFilling(ids, cmd, k.ino, writes[i]))
            && IsFilling(ids, cmd, k.ino, Final(d, writes))
            && |Final(d, writes).inodes[k.ino].bytes| == Reach(k, cmd, |d.inodes[k.ino].bytes|)
            && (Accepting(k) ==> Final(d, writes).inodes[k.ino].bytes == cmd)
    decreases |cmd| - |d.inodes[k.ino].bytes|
  {
    var offset := |d.inodes[k.ino].bytes|;
    var n := Took(k, cmd, offset);
    if offset == |cmd| || n == 0 {
      assert Accepting(k) ==> 1 <= k.accept(offset);
    } else {
      var t := Append(d, k.ino, cmd[offset..offset + n]);
      WriteFills(ids, cmd, k.ino, d, n);
      WritesFill(ids, k, cmd, t);
      var rest := Writes(k, cmd, t, offset + n);
      assert Writes(k, cmd, d, offset) == [t] + rest;
      assert Final(d, [t] + rest) == Final(t, rest);
    }
  }

  lemma WritesAreSafe(ids: Ids, k: Kernel, cmd: string)
    requires |cmd| == COMMAND_LENGTH
    ensures var writes := Writes(k, cmd, Filling(ids, k.ino, ""), 0);
            var end := Final(Filling(ids, k.ino, ""), writes);
            && AllSafe(ids, cmd, writes)
            && (Reach(k, cmd, 0) == |cmd| ==> end == Filling(ids, k.ino, cmd))
            && (Accepting(k) ==> Reach(k, cmd, 0) == |cmd|)
  {
    var writes := Writes(k, cmd, Filling(ids, k.ino, ""), 0);
    WritesFill(ids, k, cmd, Filling(ids, k.ino, ""));
    forall i | 0 <= i < |writes| ensures Safe(ids, cmd, writes[i]) && Leftover(ids.expected, cmd, writes[i]) {
      FillingIsSafe(ids, cmd, k.ino, writes[i]);
    }
  }

  lemma LinkedShapes(ids: Ids, cmd: string, ino: int)
    requires |cmd| == COMMAND_LENGTH
    ensures var published := LinkTarget(Filling(ids, ino, cmd), ino);
            && Doubled(ids, cmd, published) && Safe(ids, cmd, published)
            && Published(ids, cmd, UnlinkTemp(published)) && Safe(ids, cmd, UnlinkTemp(published))
  {
    var published := LinkTarget(Filling(ids, ino, cmd), ino);
    assert published.inodes == map[ino := File(ids.expected, 2, cmd)];
    assert UnlinkTemp(published).inodes == map[ino := File(ids.expected, 1, cmd)];
    SafeShapes(ids, cmd, published);
    SafeShapes(ids, cmd, UnlinkTemp(published));
  }

  lemma PublishIsSafe(ids: Ids, k: Kernel, cmd: string)
    requires |cmd| == COMMAND_LENGTH
    ensures var run := Publish(k, cmd, Filling(ids, k.ino, ""));
            AllSafe(ids, cmd, run) && (Accepting(k) ==> run != [] && Published(ids, cmd, Final(EMPTY, run)))
  {
    var d := Filling(ids, k.ino, "");
    WritesAreSafe(ids, k, cmd);
    if Reach(k, cmd, 0) == |cmd| {
      LinkedShapes(ids, cmd, k.ino);
    }
  }

  lemma CreateIsSafe(ids: Ids, k: Kernel, cmd: string)
    requires |cmd| == COMMAND_LENGTH
    ensures var run := Create(ids, k, cmd, EMPTY);
            && AllSafe(ids, cmd, run)
            && run != []
            && (CanPublish(ids) && Accepting(k) ==> Published(ids, cmd, Final(EMPTY, run)))
            && (!CanPublish(ids) ==> Draft(ids, cmd, Final(EMPTY, run)))
  {
    var created := CreateTemp(EMPTY, k.ino, ids.service);
    assert created.inodes == map[k.ino := File(ids.service, 1, "")];
    SafeShapes(ids, cmd, created);
    if CanPublish(ids) {
      var owned := if IsRoot(ids) then ChangeOwner(created, k.ino, ids.expected) else created;
      var publish := Publish(k, cmd, owned);
      assert owned == Filling(ids, k.ino, "");
      FillingIsSafe(ids, cmd, k.ino, owned);
      PublishIsSafe(ids, k, cmd);
    }
  }

  lemma TempGone(ids: Ids, cmd: string, d: Dir)
    requires |cmd| == COMMAND_LENGTH && Safe(ids, cmd, d) && d.temp.Some?
    ensures Safe(ids, cmd, UnlinkTemp(d))
    ensures if d.target.Some? then Published(ids, cmd, UnlinkTemp(d)) else UnlinkTemp(d) == EMPTY
  {
    SafeShapes(ids, cmd, d);
    var t := UnlinkTemp(d);
    if d.target.None? {
      assert t.inodes == map[];
    } else {
      assert t.inodes == map[d.target.value := File(ids.expected, 1, cmd)];
    }
    SafeShapes(ids, cmd, t);
  }

  lemma TargetGone(ids: Ids, cmd: string, d: Dir)
    requires |cmd| == COMMAND_LENGTH && Safe(ids, cmd, d) && d.target.Some?
    ensures Safe(ids, cmd, UnlinkTarget(d))
  {
    SafeShapes(ids, cmd, d);
    var t := UnlinkTarget(d);
    if d.temp.None? {
      assert t.inodes == map[];
    } else {
      assert t.inodes.Keys == {d.temp.value};
    }
    SafeShapes(ids, cmd, t);
  }

  lemma UnclaimedIsSafe(ids: Ids, k: Kernel, cmd: string, d: Dir)
    requires |cmd| == COMMAND_LENGTH && Safe(ids, cmd, d)
    ensures AllSafe(ids, cmd, UnclaimedRun(ids, k, cmd, d))
  {
    SafeShapes(ids, cmd, d);
    if d.temp.Some? { TempGone(ids, cmd, d); }
    CreateIsSafe(ids, k, cmd);
  }

  lemma ClaimedIsSafe(ids: Ids, cmd: string, d: Dir)
    requires |cmd| == COMMAND_LENGTH && Safe(ids, cmd, d)
    ensures forall i :: 0 <= i < |ClaimedRun(ids, cmd, d)| ==> Safe(ids, cmd, ClaimedRun(ids, cmd, d)[i])
    ensures Leftover(ids.expected, cmd, d) ==> AllSafe(ids, cmd, ClaimedRun(ids, cmd, d))
    ensures Admitted(ids) ==> Final(d, ClaimedRun(ids, cmd, d)) == EMPTY
  {
    SafeShapes(ids, cmd, d);
    var first := UnlinkTarget(d);
    if d.target.Some? {
      TargetGone(ids, cmd, d);
      if d.temp.None? { assert first.inodes == map[]; }
    }
    if d.temp.Some? { TempGone(ids, cmd, first); }
  }

  /**
   Undisturbed, an unclaimed run ends with exactly the published file, if and
   only if it was there already or the process can own files as the directory
   demands; otherwise it ends with an unpublished draft.
   */
  lemma UnclaimedCompletes(ids: Ids, k: Kernel, cmd: string, d: Dir)
    requires |cmd| == COMMAND_LENGTH && Safe(ids, cmd, d) && Accepting(k)
    ensures var end := Final(d, UnclaimedRun(ids, k, cmd, d));
            if Admitted(ids)
            then (Published(ids, cmd, end) <==> d.target.Some? || CanPublish(ids))
                 && (!Published(ids, cmd, end) ==> Draft(ids, cmd, end))
            else end == d
  {
    SafeShapes(ids, cmd, d);
    if d.temp.Some? { TempGone(ids, cmd, d); }
    CreateIsSafe(ids, k, cmd);
    var run := UnclaimedRun(ids, k, cmd, d);
    if Admitted(ids) && d.target.None? {
      assert Final(d, run) == Final(EMPTY, Create(ids, k, cmd, EMPTY));
    }
  }

  /** A directory that fails the inspection is not touched by either run. */
  lemma UnsafeIsUntouched(ids: Ids, k: Kernel, cmd: string, d: Dir)
    requires !Admitted(ids) || !Accepted(ids, cmd, d)
    ensures Final(d, UnclaimedRun(ids, k, cmd, d)) == d && Final(d, ClaimedRun(ids, cmd, d)) == d
  {
  }

  /** A foreign or damaged target is never accepted: only the exact command, privately owned, passes. */
  lemma AcceptedTargetIsExact(ids: Ids, cmd: string, d: Dir)
    requires Accepted(ids, cmd, d) && d.target.Some?
    ensures d.target.value in d.inodes
    ensures var f := d.inodes[d.target.value];
            f.regular && f.mode == PRIVATE_MODE && f.owner == ids.expected && f.bytes == cmd && 1 <= f.links <= 2
  {
  }

  /** A regular file of mode 0600 with one or two names. */
  predicate IsPrivateFile(f: Inode) {
    f.regular && f.mode == 0x180 && (f.links == 1 || f.links == 2)
  }

  predicate FineTarget(ids: Ids, cmd: string, d: Dir) {
    && d.target.Some? && d.target.value in d.inodes
    && var f := d.inodes[d.target.value];
       IsPrivateFile(f) && f.owner == ids.expected && f.bytes == cmd
  }

  /** The complete command must be handed over; a part of it may still be the process's own, under one name. */
  predicate FineTemp(ids: Ids, cmd: string, d: Dir) {
    && d.temp.Some? && d.temp.value in d.inodes
    && var f := d.inodes[d.temp.value];
       && IsPrivateFile(f) && |f.bytes| <= |cmd| && cmd[..|f.bytes|] == f.bytes
       && (f.owner == ids.expected || (f.owner == ids.service && f.links == 1 && f.bytes != cmd))
  }

  /**
   What passes inspection, in any directory, whatever else may hold links to its
   files: each entry fine by itself, two names of one file exactly if both
   entries are that file, one name otherwise.
   */
  lemma AcceptedExactly(ids: Ids, cmd: string, d: Dir)
    requires |cmd| == COMMAND_LENGTH
    ensures Accepted(ids, cmd, d) <==>
              && (d.target.Some? ==> FineTarget(ids, cmd, d)
                                     && d.inodes[d.target.value].links == if d.temp == d.target then 2 else 1)
              && (d.temp.Some? ==> FineTemp(ids, cmd, d)
                                   && d.inodes[d.temp.value].links == if d.temp == d.target then 2 else 1)
  {
  }

  /** A finished directory stays as it is: nothing is written or removed again. */
  lemma FinishedRunsDoNothing(ids: Ids, k: Kernel, cmd: string, d: Dir)
    ensures d.target.Some? && d.temp.None? ==> UnclaimedRun(ids, k, cmd, d) == []
    ensures d.target.None? && d.temp.None? ==> ClaimedRun(ids, cmd, d) == []
    ensures d.target.Some? && d.temp.None? ==> |ClaimedRun(ids, cmd, d)| <= 1
    ensures d.target.None? && d.temp.Some? ==> |ClaimedRun(ids, cmd, d)| <= 1
  {
  }
}
