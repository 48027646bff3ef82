/** The claim-code directory as the manager changes it, system call by system call. */
module ClaimFileStore {
  import opened Prelude
  import opened ClaimCode
  import opened ClaimFile
  import opened ClaimFileRuns

  datatype ClaimFileError = InvalidToken | UnsafeEntry | Filesystem

  class Directory {
    var target: Option<int>
    var temp: Option<int>
    var inodes: map<int, Inode>
    /** Every state the directory has been left in. */
    ghost var trail: seq<Dir>

    ghost function View(): Dir
      reads this
    {
      Dir(target, temp, inodes)
    }

    constructor (d: Dir)
      ensures View() == d && trail == []
    {
      target, temp, inodes, trail := d.target, d.temp, d.inodes, [];
    }

    // ----- system calls -------------------------------------------------------------------

    method CreateTempFile(ino: int, owner: Owner)
      modifies this
      ensures View() == CreateTemp(old(View()), ino, owner) && trail == old(trail) + [View()]
    {
      temp, inodes := Some(ino), inodes[ino := Inode(true, PRIVATE_MODE, owner, 1, "")];
      trail := trail + [View()];
    }

    method Chown(ino: int, owner: Owner)
      requires ino in inodes
      modifies this
      ensures View() == ChangeOwner(old(View()), ino, owner) && trail == old(trail) + [View()]
    {
      inodes := inodes[ino := inodes[ino].(owner := owner)];
      trail := trail + [View()];
    }

    method Write(ino: int, chunk: string)
      requires ino in inodes
      modifies this
      ensures View() == Append(old(View()), ino, chunk) && trail == old(trail) + [View()]
    {
      inodes := inodes[ino := inodes[ino].(bytes := inodes[ino].bytes + chunk)];
      trail := trail + [View()];
    }

    method Link(ino: int)
      requires ino in inodes
      modifies this
      ensures View() == LinkTarget(old(View()), ino) && trail == old(trail) + [View()]
    {
      target, inodes := Some(ino), inodes[ino := inodes[ino].(links := inodes[ino].links + 1)];
      trail := trail + [View()];
    }

    /** Removes the temporary entry if it still names the inspected inode. */
    method UnlinkVerifiedTemp(ino: int) returns (ok: bool)
      modifies this
      ensures ok == (old(temp) == Some(ino))
      ensures if ok then View() == UnlinkTemp(old(View())) && trail == old(trail) + [View()]
              else View() == old(View()) && trail == old(trail)
    {
      if temp != Some(ino) {
        return false;
      }
      temp, inodes := None, Drop(inodes, ino);
      trail := trail + [View()];
      return true;
    }

    method UnlinkVerifiedTarget(ino: int) returns (ok: bool)
      modifies this
      ensures ok == (old(target) == Some(ino))
      ensures if ok then View() == UnlinkTarget(old(View())) && trail == old(trail) + [View()]
              else View() == old(View()) && trail == old(trail)
    {
      if target != Some(ino) {
        return false;
      }
      target, inodes := None, Drop(inodes, ino);
      trail := trail + [View()];
      return true;
    }

    // ----- the manager -----------------------------------------------------------------------

    method WriteAll(k: Kernel, cmd: string) returns (ok: bool)
      requires k.ino in inodes
      modifies this
      ensures trail == old(trail) + Writes(k, cmd, old(View()), 0)
      ensures View() == Final(old(View()), Writes(k, cmd, old(View()), 0))
      ensures ok == (Reach(k, cmd, 0) == |cmd|)
    {
      var offset: nat := 0;
      while offset < |cmd|
        invariant offset <= |cmd| && k.ino in inodes
        invariant trail + Writes(k, cmd, View(), offset) == old(trail) + Writes(k, cmd, old(View()), 0)
        invariant Final(View(), Writes(k, cmd, View(), offset)) == Final(old(View()), Writes(k, cmd, old(View()), 0))
        invariant Reach(k, cmd, offset) == Reach(k, cmd, 0)
      {
        var count := Took(k, cmd, offset);
        if count == 0 {
          return false;
        }
        ghost var before := View();
        Write(k.ino, cmd[offset..offset + count]);
        offset := offset + count;
        ghost var rest := Writes(k, cmd, View(), offset);
        assert Writes(k, cmd, before, offset - count) == [View()] + rest;
        assert Final(before, [View()] + rest) == Final(View(), rest);
      }
      return true;
    }

    method CreateAndPublish(ids: Ids, k: Kernel, cmd: string) returns (r: Option<ClaimFileError>)
      modifies this
      ensures trail == old(trail) + Create(ids, k, cmd, old(View()))
      ensures View() == Final(old(View()), Create(ids, k, cmd, old(View())))
      ensures r.None? <==> CanPublish(ids) && Reach(k, cmd, 0) == |cmd|
    {
      CreateTempFile(k.ino, ids.service);
      if ids.service.uid == 0 {
        Chown(k.ino, ids.expected);
      }
      if inodes[k.ino].owner != ids.expected || inodes[k.ino].links != 1 {
        return Some(UnsafeEntry);
      }
      r := FillAndLink(k, cmd);
    }

    method FillAndLink(k: Kernel, cmd: string) returns (r: Option<ClaimFileError>)
      requires k.ino in inodes && temp == Some(k.ino)
      modifies this
      ensures trail == old(trail) + Publish(k, cmd, old(View()))
      ensures View() == Final(old(View()), Publish(k, cmd, old(View())))
      ensures r.None? <==> Reach(k, cmd, 0) == |cmd|
    {
      WritesKeepInode(k, cmd, View(), 0);
      WritesKeepTemp(k, cmd, View(), 0);
      var written := WriteAll(k, cmd);
      if !written {
        return Some(Filesystem);
      }
      Link(k.ino);
      var removed := UnlinkVerifiedTemp(k.ino);
      assert removed;
      return None;
    }

    method ReconcileUnclaimed(ids: Ids, k: Kernel, token: seq<Byte>) returns (r: Option<ClaimFileError>)
      modifies this
      ensures !Admitted(ids) ==> r == Some(Filesystem) && View() == old(View()) && trail == old(trail)
      ensures Admitted(ids) && |token| != TOKEN_BYTES ==>
                r == Some(InvalidToken) && View() == old(View()) && trail == old(trail)
      ensures Admitted(ids) && |token| == TOKEN_BYTES ==>
                var cmd := ExpectedCommand(token).value;
                && trail == old(trail) + UnclaimedRun(ids, k, cmd, old(View()))
                && View() == Final(old(View()), UnclaimedRun(ids, k, cmd, old(View())))
                && (!Accepted(ids, cmd, old(View())) ==> r == Some(UnsafeEntry))
                && (r.None? <==> Accepted(ids, cmd, old(View()))
                                 && (old(target).Some? || (CanPublish(ids) && Reach(k, cmd, 0) == |cmd|)))
    {
      if ids.service.uid != 0 && ids.service.uid != ids.expected.uid {
        return Some(Filesystem);
      }
      var expected := ExpectedCommand(token);
      if expected.None? {
        return Some(InvalidToken);
      }
      var cmd := expected.value;
      var inspectedTarget := Inspect(ids, cmd, Dir(target, temp, inodes), target, false);
      var inspectedTemp := Inspect(ids, cmd, Dir(target, temp, inodes), temp, true);
      if !ValidPair(inspectedTarget, inspectedTemp) {
        return Some(UnsafeEntry);
      }
      if inspectedTarget.Present? {
        if inspectedTemp.Present? {
          var removed := UnlinkVerifiedTemp(inspectedTemp.entry.ino);
          assert removed;
        }
        return None;
      }
      if inspectedTemp.Present? {
        var removed := UnlinkVerifiedTemp(inspectedTemp.entry.ino);
        assert removed;
      }
      r := CreateAndPublish(ids, k, cmd);
    }

    method RetireAfterClaim(ids: Ids, token: seq<Byte>) returns (r: Option<ClaimFileError>)
      modifies this
      ensures !Admitted(ids) ==> r == Some(Filesystem) && View() == old(View()) && trail == old(trail)
      ensures Admitted(ids) && |token| != TOKEN_BYTES ==>
                r == Some(InvalidToken) && View() == old(View()) && trail == old(trail)
      ensures Admitted(ids) && |token| == TOKEN_BYTES ==>
                var cmd := ExpectedCommand(token).value;
                && trail == old(trail) + ClaimedRun(ids, cmd, old(View()))
                && View() == Final(old(View()), ClaimedRun(ids, cmd, old(View())))
                && r == if Accepted(ids, cmd, old(View())) then None else Some(UnsafeEntry)
    {
      if ids.service.uid != 0 && ids.service.uid != ids.expected.uid {
        return Some(Filesystem);
      }
      var expected := ExpectedCommand(token);
      if expected.None? {
        return Some(InvalidToken);
      }
      var cmd := expected.value;
      var inspectedTarget := Inspect(ids, cmd, Dir(target, temp, inodes), target, false);
      var inspectedTemp := Inspect(ids, cmd, Dir(target, temp, inodes), temp, true);
      if !ValidPair(inspectedTarget, inspectedTemp) {
        return Some(UnsafeEntry);
      }
      if inspectedTarget.Present? {
        var removed := UnlinkVerifiedTarget(inspectedTarget.entry.ino);
        assert removed;
      }
      if inspectedTemp.Present? {
        var removed := UnlinkVerifiedTemp(inspectedTemp.entry.ino);
        assert removed;
      }
      return None;
    }
  }

  lemma {:induction false} WritesKeepTemp(k: Kernel, cmd: string, d: Dir, offset: nat)
    requires offset <= |cmd| && k.ino in d.inodes
    ensures Final(d, Writes(k, cmd, d, offset)).temp == d.temp
    decreases |cmd| - offset
  {
    if offset != |cmd| && Took(k, cmd, offset) != 0 {
      var n := Took(k, cmd, offset);
      var t := Append(d, k.ino, cmd[offset..offset + n]);
      WritesKeepTemp(k, cmd, t, offset + n);
      var rest := Writes(k, cmd, t, offset + n);
      assert Final(d, [t] + rest) == Final(t, rest);
    }
  }

  /** Reads at most `capacity` bytes, however the kernel splits them. */
  method ReadCapped(content: string, capacity: nat, give: nat -> nat) returns (bytes: string)
    requires forall offset: nat :: 1 <= give(offset)
    ensures bytes == content[..if |content| < capacity then |content| else capacity]
  {
    bytes := "";
    while |bytes| < capacity
      invariant |bytes| <= capacity && bytes <= content
      decreases capacity - |bytes|
    {
      var offset := |bytes|;
      var left := if |content| < capacity then |content| - offset else capacity - offset;
      var count := if give(offset) < left then give(offset) else left;
      if count == 0 {
        break;
      }
      assert content[..offset] + content[offset..offset + count] == content[..offset + count];
      bytes := bytes + content[offset..offset + count];
    }
  }
}
