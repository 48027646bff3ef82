/** Histories of interrupted runs, each under the identity its process happened to have. */
module ClaimFileHistory {
  import opened Prelude
  import opened ClaimCode
  import opened ClaimFile
  import opened ClaimFileRuns

  /** A run that stopped after some of its effects, by a crash or by a failed system call. */
  datatype Attempt = Attempt(service: Owner, claimed: bool, kernel: Kernel, effects: nat)

  function RunOf(expected: Owner, cmd: string, d: Dir, a: Attempt): seq<Dir> {
    var ids := Ids(expected, a.service);
    if a.claimed then ClaimedRun(ids, cmd, d) else UnclaimedRun(ids, a.kernel, cmd, d)
  }

  function Stopped(expected: Owner, cmd: string, d: Dir, a: Attempt): Dir {
    var run := RunOf(expected, cmd, d, a);
    if a.effects == 0 then d else if a.effects <= |run| then run[a.effects - 1] else Final(d, run)
  }

  function AfterAll(expected: Owner, cmd: string, d: Dir, attempts: seq<Attempt>): Dir {
    if attempts == [] then d
    else Stopped(expected, cmd, AfterAll(expected, cmd, d, attempts[..|attempts| - 1]), attempts[|attempts| - 1])
  }

  /** An unpublished temporary file belongs to the directory's owner or to the process itself. */
  predicate Welcome(ids: Ids, d: Dir) {
    d.target.None? && d.temp.Some? && d.temp.value in d.inodes ==>
      d.inodes[d.temp.value].owner == ids.expected || d.inodes[d.temp.value].owner == ids.service
  }

  /** Of what runs leave behind, the inspection refuses exactly another identity's temporary file. */
  lemma SafeExactlyIfWelcome(ids: Ids, cmd: string, d: Dir)
    requires |cmd| == COMMAND_LENGTH && Leftover(ids.expected, cmd, d)
    ensures Safe(ids, cmd, d) <==> Welcome(ids, d)
    ensures Accepted(ids, cmd, d) <==> Welcome(ids, d)
  {
    SafeShapes(ids, cmd, d);
    LeftoverIsLinked(ids.expected, cmd, d);
  }

  lemma LeftoverIsLinked(expected: Owner, cmd: string, d: Dir)
    requires Leftover(expected, cmd, d)
    ensures WellLinked(d)
  {
  }

  lemma AttemptLeaves(expected: Owner, cmd: string, d: Dir, a: Attempt)
    requires |cmd| == COMMAND_LENGTH && Leftover(expected, cmd, d)
    ensures Leftover(expected, cmd, Stopped(expected, cmd, d, a))
    ensures !Welcome(Ids(expected, a.service), d) ==> Stopped(expected, cmd, d, a) == d
  {
    var ids := Ids(expected, a.service);
    SafeExactlyIfWelcome(ids, cmd, d);
    if Welcome(ids, d) {
      if a.claimed {
        ClaimedIsSafe(ids, cmd, d);
      } else {
        UnclaimedIsSafe(ids, a.kernel, cmd, d);
      }
    }
  }

  lemma {:induction false} HistoryLeaves(expected: Owner, cmd: string, d: Dir, attempts: seq<Attempt>)
    requires |cmd| == COMMAND_LENGTH && Leftover(expected, cmd, d)
    ensures Leftover(expected, cmd, AfterAll(expected, cmd, d, attempts))
    decreases |attempts|
  {
    if attempts != [] {
      HistoryLeaves(expected, cmd, d, attempts[..|attempts| - 1]);
      AttemptLeaves(expected, cmd, AfterAll(expected, cmd, d, attempts[..|attempts| - 1]), attempts[|attempts| - 1]);
    }
  }

  /**
   After any sequence of runs under any identities, each stopped anywhere, the
   next process accepts the directory if and only if the temporary file it may
   hold belongs to the directory's owner or to that process.
   */
  lemma HistoryIsSafeExactly(ids: Ids, cmd: string, attempts: seq<Attempt>)
    requires |cmd| == COMMAND_LENGTH
    ensures var d := AfterAll(ids.expected, cmd, EMPTY, attempts); Safe(ids, cmd, d) <==> Welcome(ids, d)
  {
    HistoryLeaves(ids.expected, cmd, EMPTY, attempts);
    SafeExactlyIfWelcome(ids, cmd, AfterAll(ids.expected, cmd, EMPTY, attempts));
  }

  /** One identity throughout: every directory its interrupted runs leave is safe for it. */
  lemma {:induction false} OneIdentityIsSafe(ids: Ids, cmd: string, attempts: seq<Attempt>)
    requires |cmd| == COMMAND_LENGTH && forall i :: 0 <= i < |attempts| ==> attempts[i].service == ids.service
    ensures Safe(ids, cmd, AfterAll(ids.expected, cmd, EMPTY, attempts))
  {
    if attempts == [] {
      SafeShapes(ids, cmd, EMPTY);
    } else {
      var before := AfterAll(ids.expected, cmd, EMPTY, attempts[..|attempts| - 1]);
      var a := attempts[|attempts| - 1];
      OneIdentityIsSafe(ids, cmd, attempts[..|attempts| - 1]);
      HistoryLeaves(ids.expected, cmd, EMPTY, attempts[..|attempts| - 1]);
      if a.claimed {
        ClaimedIsSafe(ids, cmd, before);
      } else {
        UnclaimedIsSafe(ids, a.kernel, cmd, before);
      }
    }
  }

  /**
   Whatever sequence of runs was cut short, wherever and by whom: a target that
   exists is complete; if the process is welcome, its next undisturbed unclaimed
   run leaves exactly the published file, which parses back to the token, and its
   next claimed run leaves nothing; if not, neither run changes anything.
   */
  lemma RecoversFromAnyHistory(ids: Ids, token: seq<Byte>, attempts: seq<Attempt>, k: Kernel, sender: Context)
    requires |token| == TOKEN_BYTES && CanPublish(ids) && Accepting(k) && WellPlaced(sender)
    ensures var cmd := ExpectedCommand(token).value;
            var d := AfterAll(ids.expected, cmd, EMPTY, attempts);
            var unclaimed, claimed := Final(d, UnclaimedRun(ids, k, cmd, d)), Final(d, ClaimedRun(ids, cmd, d));
            && (d.target.Some? ==> d.target.value in d.inodes && d.inodes[d.target.value].bytes == cmd)
            && (Welcome(ids, d) ==>
               Published(ids, cmd, unclaimed) && claimed == EMPTY && ParsesTo(unclaimed, sender, token))
            && (!Welcome(ids, d) ==> d.target.None? && unclaimed == d && claimed == d)
  {
    var cmd := ExpectedCommand(token).value;
    var d := AfterAll(ids.expected, cmd, EMPTY, attempts);
    HistoryLeaves(ids.expected, cmd, EMPTY, attempts);
    SafeExactlyIfWelcome(ids, cmd, d);
    if Welcome(ids, d) {
      SafeShapes(ids, cmd, d);
      UnclaimedCompletes(ids, k, cmd, d);
      ClaimedIsSafe(ids, cmd, d);
      PublishedParsesBack(sender.(text := Some(cmd[..COMMAND_LENGTH - 1])), token);
    }
  }

  /** The published text, sent without its newline, is a claim for the token. */
  predicate ParsesTo(d: Dir, sender: Context, token: seq<Byte>)
    requires WellPlaced(sender)
  {
    && d.target.Some? && d.target.value in d.inodes && |d.inodes[d.target.value].bytes| == COMMAND_LENGTH
    && ParseOwnerClaim(sender.(text := Some(d.inodes[d.target.value].bytes[..COMMAND_LENGTH - 1])))
       == Candidate(sender.from.value, sender.chat, sender.message, sender.date, token)
  }

  /** As long as only unwelcome processes try, the directory stays as it is. */
  lemma {:induction false} UnwelcomeChangeNothing(expected: Owner, cmd: string, d: Dir, attempts: seq<Attempt>)
    requires |cmd| == COMMAND_LENGTH && Leftover(expected, cmd, d)
    requires forall i :: 0 <= i < |attempts| ==> !Welcome(Ids(expected, attempts[i].service), d)
    ensures AfterAll(expected, cmd, d, attempts) == d
    decreases |attempts|
  {
    if attempts != [] {
      UnwelcomeChangeNothing(expected, cmd, d, attempts[..|attempts| - 1]);
      AttemptLeaves(expected, cmd, d, attempts[|attempts| - 1]);
    }
  }

  const SERVICE := Owner(1000, 1000)
  const ROOT := Owner(0, 0)

  /** Root stops right after creating the file; from then on the service user finds it unsafe, however often it runs. */
  lemma {:induction false} RootStubStrandsService(cmd: string, kernel: Kernel, later: seq<Attempt>)
    requires |cmd| == COMMAND_LENGTH && forall i :: 0 <= i < |later| ==> later[i].service == SERVICE
    ensures var d := AfterAll(SERVICE, cmd, EMPTY, [Attempt(ROOT, false, kernel, 1)]);
            && d.target.None? && d.temp.Some? && !Accepted(Ids(SERVICE, SERVICE), cmd, d)
            && AfterAll(SERVICE, cmd, d, later) == d
  {
    var a := Attempt(ROOT, false, kernel, 1);
    SafeShapes(Ids(SERVICE, ROOT), cmd, EMPTY);
    var d := CreateTemp(EMPTY, kernel.ino, ROOT);
    assert RunOf(SERVICE, cmd, EMPTY, a)[0] == d;
    assert [a][..0] == [];
    assert AfterAll(SERVICE, cmd, EMPTY, [a]) == d;
    SafeExactlyIfWelcome(Ids(SERVICE, SERVICE), cmd, d);
    UnwelcomeChangeNothing(SERVICE, cmd, d, later);
  }
}
