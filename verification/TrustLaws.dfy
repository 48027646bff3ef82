/**
 What the steps of the trust protocol achieve, and exactly when, said of the rows
 themselves; and what follows over runs.
 */
module TrustLaws {
  import opened Prelude
  import opened Ranking
  import opened Trust
  import opened TrustSystem
  import opened TrustInvariant
  import opened TrustRuns

  // ----- a refused token ----------------------------------------------------------------

  /** The step ends a lookup for which Telegram refused the bot's token. */
  predicate AuthFails(step: Step) {
    (step.FinishTrigger? || step.FinishStartup? || step.FinishClaim?) && step.result.AuthenticationFailed?
  }

  lemma AuthFailureFences(s: Sys, step: Step)
    requires CanStep(s, step) && AuthFails(step) && !step.FinishClaim?
    ensures Fenced(s.store, Next(s, step).store) && Next(s, step).work.Idle? && Next(s, step).log == s.log
  {
  }

  lemma ClaimAuthFailure(s: Sys, r: LookupResult, now: int)
    requires Inv(s) && CanStep(s, FinishClaim(r, now)) && r.AuthenticationFailed?
    ensures var t := DoFinishClaim(s, r, now).store;
            && t.gate.state == AuthFailed && t.trusted == map[] && t.owner.Claimed?
            && t.gate.revision == s.store.gate.revision + (if s.store.gate.state == AuthFailed then 0 else 1)
  {
    PruneSound(s.store, now - CANDIDATE_RETENTION, CANDIDATE_LIMIT);
    CommitClaimSound(s.store, s.work.request, s.work.seen, r, now);
  }

  lemma AuthFailureCloses(s: Sys, step: Step)
    requires Inv(s) && CanStep(s, step) && AuthFails(step)
    ensures Next(s, step).store.gate.state == AuthFailed
    ensures forall id :: id in Next(s, step).store.trusted ==>
              !Next(s, step).store.trusted[id].enabled && !Next(s, step).store.trusted[id].confirmed
  {
    if step.FinishClaim? {
      ClaimAuthFailure(s, step.result, step.now);
    } else {
      AuthFailureFences(s, step);
    }
  }

  /**
   A lookup that finds the token refused closes the gate and disables every
   trusted row; until the process restarts no rights check passes.
   */
  lemma AuthFailureStopsEffects(states: seq<Sys>, steps: seq<Step>, i: nat, j: nat)
    requires IsRun(states, steps) && i < j < |states| && AuthFails(steps[i])
    requires forall k :: i < k < j ==> !steps[k].Restart?
    ensures states[j].store.gate.state == AuthFailed
    ensures forall id, required :: !EnsureRight(states[j].store, id, required)
    ensures !steps[i].FinishClaim? ==> Fenced(states[i].store, states[i + 1].store)
  {
    RunInv(states, steps, i);
    AuthFailureCloses(states[i], steps[i]);
    if !steps[i].FinishClaim? { AuthFailureFences(states[i], steps[i]); }
    NoEffectsAfterAuthFailure(states, steps, i + 1, j);
  }

  // ----- an answer about a connection -------------------------------------------------------

  /** The row says what Telegram said, and is confirmed. */
  predicate Mirrors(row: Trusted, a: Authoritative) {
    && row.owner == a.user && row.rights == a.rights && row.enabled == a.enabled
    && row.established == Some(a.established) && row.confirmed
  }

  /** Newer than the Owner floor, the overflow guard and every candidate but its own. */
  predicate Newest(s: Store, a: Authoritative) {
    && (s.owner.Claimed? && s.owner.floor.Some? ==> s.owner.floor.value < a.established)
    && (s.guard.overflow.Some? ==> s.guard.overflow.value < a.established)
    && forall id :: id in s.candidates && id != a.id ==> s.candidates[id].established < a.established
  }

  /** Which answers about the Owner's connections are taken over. */
  predicate Fits(s: Store, a: Authoritative, expected: Option<int>) {
    if s.trusted == map[] then expected.None? && Newest(s, a)
    else if a.id in s.trusted then
      && expected == Some(s.trusted[a.id].revision)
      && (s.trusted[a.id].established.Some? ==> s.trusted[a.id].established.value == a.established)
    else
      forall id :: id in s.trusted ==>
        && expected == Some(s.trusted[id].revision)
        && s.trusted[id].established.Some? && s.trusted[id].established.value < a.established && Newest(s, a)
  }

  /** The answer names another connection of exactly the trusted generation. */
  predicate Rivals(s: Store, a: Authoritative, expected: Option<int>) {
    && s.trusted != map[] && a.id !in s.trusted
    && forall id :: id in s.trusted ==>
         expected == Some(s.trusted[id].revision) && s.trusted[id].established == Some(a.established)
  }

  predicate TakenOver(s: Store, t: Store, a: Authoritative) {
    && t.trusted.Keys == {a.id} && Mirrors(t.trusted[a.id], a)
    && t.trusted[a.id].revision
       == (if a.id in s.trusted then s.trusted[a.id].revision + 1
           else if a.id in s.candidates then s.candidates[a.id].revision + 1 else 0)
    && t.candidates == s.candidates - {a.id}
    && t.owner == s.owner && t.guard == s.guard && t.gate == s.gate
  }

  predicate Retained(s: Store, t: Store, id: ConnId, c: Candidate) {
    id in t.candidates
    && t.candidates[id] == c.(revision := if id in s.candidates then s.candidates[id].revision + 1 else 0)
  }

  /** Neither of two rivals is trusted; both are kept as candidates, and the floor rises to their generation. */
  predicate BothRetained(s: Store, t: Store, a: Authoritative, now: int)
    requires s.owner.Claimed?
  {
    && t.trusted == map[]
    && (forall id :: id in s.trusted ==>
          var row := s.trusted[id];
          Retained(s, t, id, Candidate(row.owner, Some(s.owner.chat), row.rights, row.enabled, a.established, 0, now)))
    && Retained(s, t, a.id, Candidate(a.user, a.chat, a.rights, a.enabled, a.established, 0, now))
    && t.candidates.Keys == s.candidates.Keys + s.trusted.Keys + {a.id}
    && (forall id :: id in s.candidates && id != a.id ==> t.candidates[id] == s.candidates[id])
    && t.owner == s.owner.(floor := Raise(s.owner.floor, a.established)) && t.gate == s.gate
    && t.guard == (if s.guard.overflow.None? then s.guard
                   else Guard(Some(Max(s.guard.overflow.value, a.established)), s.guard.revision + 1))
  }

  /** A refused answer about the trusted connection may only narrow or close its row. */
  predicate OnlyNarrowed(s: Store, t: Store, a: Authoritative, expected: Option<int>) {
    && t.owner == s.owner && t.candidates == s.candidates && t.guard == s.guard && t.gate == s.gate
    && t.trusted.Keys == s.trusted.Keys
    && (forall id :: id in s.trusted && id != a.id ==> t.trusted[id] == s.trusted[id])
    && (a.id in s.trusted ==> Shrunk(s.trusted[a.id], t.trusted[a.id], a, expected))
  }

  /** At a stale revision to what both grant; at the current one the row is disabled and gated. */
  predicate Shrunk(before: Trusted, after: Trusted, a: Authoritative, expected: Option<int>) {
    && after.owner == before.owner && after.established == before.established
    && if expected != Some(before.revision)
       then && after.confirmed == before.confirmed
            && after.enabled == (before.enabled && a.enabled)
            && after.rights.reply == (before.rights.reply && a.rights.reply)
            && after.rights.read == (before.rights.read && a.rights.read)
            && after.rights.deleteSent == (before.rights.deleteSent && a.rights.deleteSent)
            && after.rights.deleteAll == (before.rights.deleteAll && a.rights.deleteAll)
            && after.revision == before.revision + (if after.enabled == before.enabled && after.rights == before.rights
                                                    then 0 else 1)
       else && !after.enabled && !after.confirmed && after.rights == before.rights
            && after.revision == before.revision + 1
  }

  predicate Adopts(w: TrustedWrite) {
    w == Installed || w == Reconciled || w == Replaced
  }

  /** An answer without an ID, or with a user, chat or date that is not positive, writes nothing anywhere. */
  lemma MalformedAnswersAreRefused(s: Store, a: Authoritative, now: int, expected: Option<int>, ec: Option<int>, n: int)
    requires a.id == "" || a.user <= 0 || (a.chat.Some? && a.chat.value <= 0) || a.established <= 0
    ensures Reconcile(s, a, now, expected, ec, n) == (s, StorageFailure)
    ensures ApplyCandidate(s, a, now, expected) == (s, CandidateRefused)
    ensures PromoteClaimCandidate(s, a, n, n) == (s, StorageFailure)
  {
  }

  lemma FitsInstalled(s: Store, a: Authoritative, revision: int)
    requires StoreSound(s) && WellFormed(a) && s.owner.Claimed? && s.owner.user == a.user && a.id !in s.trusted
    requires revision == if a.id in s.candidates then s.candidates[a.id].revision + 1 else 0
    ensures TakenOver(s, Install(s, a, revision), a)
  {
    InstalledRow(s, a, revision);
  }

  /** The Owner's other row makes room for the new one. */
  lemma InstalledRow(s: Store, a: Authoritative, revision: int)
    requires TrustedSound(s) && (s.owner.Claimed? ==> s.owner.user == a.user)
    ensures var t := Install(s, a, revision);
            t.trusted == map[a.id := Trusted(a.user, a.rights, a.enabled, Some(a.established), revision, true)]
  {
  }

  lemma RivalsRetained(s: Store, a: Authoritative, now: int)
    requires StoreSound(s) && WellFormed(a) && s.owner.Claimed? && s.owner.user == a.user
    requires s.trusted != map[] && a.id !in s.trusted && s.trusted[SoleId(s.trusted)].established == Some(a.established)
    ensures RetainAmbiguous(s, a, now).1 == Ambiguous && BothRetained(s, RetainAmbiguous(s, a, now).0, a, now)
  {
    var t := RetainAmbiguous(s, a, now).0;
    var k := SoleId(s.trusted);
    assert s.trusted.Keys == {k};
    assert t.candidates.Keys == s.candidates.Keys + {k, a.id};
  }

  lemma SoleRow(s: Store, id: ConnId)
    requires AtMostOne(s.trusted) && id in s.trusted
    ensures SoleId(s.trusted) == id && s.trusted.Keys == {id}
  {
  }

  lemma OtherAnswer(s: Store, a: Authoritative, now: int, expected: Option<int>, revision: int)
    requires StoreSound(s) && WellFormed(a) && s.owner.Claimed? && s.owner.user == a.user
    requires s.trusted != map[] && a.id !in s.trusted
    requires revision == if a.id in s.candidates then s.candidates[a.id].revision + 1 else 0
    ensures var (t, w) := ReconcileOther(s, a, now, expected, revision);
            && (Adopts(w) <==> Fits(s, a, expected)) && (w == Ambiguous <==> Rivals(s, a, expected))
            && (Fits(s, a, expected) ==> TakenOver(s, t, a))
            && (Rivals(s, a, expected) ==> BothRetained(s, t, a, now))
            && (!Fits(s, a, expected) && !Rivals(s, a, expected) ==> t == s)
  {
    var k := SoleId(s.trusted);
    SoleRow(s, k);
    FitsInstalled(s, a, revision);
    if s.trusted[k].established == Some(a.established) { RivalsRetained(s, a, now); }
  }

  lemma SameAnswer(s: Store, a: Authoritative, expected: Option<int>)
    requires StoreSound(s) && WellFormed(a) && s.owner.Claimed? && s.owner.user == a.user && a.id in s.trusted
    ensures var (t, w) := ReconcileSame(s, a, expected);
            && (Adopts(w) <==> Fits(s, a, expected)) && w != Ambiguous
            && (Fits(s, a, expected) ==> TakenOver(s, t, a))
            && (!Fits(s, a, expected) ==> OnlyNarrowed(s, t, a, expected))
  {
    SoleRow(s, a.id);
  }

  /**
   What becomes of an answer about one of the Owner's connections, at the current
   guard and candidate revisions: it is taken over, sets two rivals aside, or
   is refused, in which case no row gains anything.
   */
  lemma AnswerIsJudgedExactly(s: Store, a: Authoritative, now: int, expected: Option<int>)
    requires StoreSound(s) && WellFormed(a) && s.owner.Claimed? && s.owner.user == a.user
    ensures var (t, w) := Reconcile(s, a, now, expected, CandidateRevision(s, a.id), s.guard.revision);
            && (Adopts(w) <==> Fits(s, a, expected)) && (w == Ambiguous <==> Rivals(s, a, expected))
            && (Fits(s, a, expected) ==> TakenOver(s, t, a))
            && (Rivals(s, a, expected) ==> BothRetained(s, t, a, now))
            && (!Fits(s, a, expected) && !Rivals(s, a, expected) ==> OnlyNarrowed(s, t, a, expected))
            && (w == RevisionConflict <==>
                  if s.trusted == map[] then expected.Some?
                  else forall id :: id in s.trusted ==> expected != Some(s.trusted[id].revision))
            && (w == Installed <==> Fits(s, a, expected) && s.trusted == map[])
            && (w == Reconciled <==> Fits(s, a, expected) && a.id in s.trusted)
            && (w == Replaced <==> Fits(s, a, expected) && s.trusted != map[] && a.id !in s.trusted)
            && (w == GenerationConflict <==>
                  !Fits(s, a, expected) && !Rivals(s, a, expected) && w != RevisionConflict)
  {
    var revision := if a.id in s.candidates then s.candidates[a.id].revision + 1 else 0;
    if s.trusted == map[] {
      FitsInstalled(s, a, revision);
    } else if a.id in s.trusted {
      SameAnswer(s, a, expected);
      SoleRow(s, a.id);
    } else {
      OtherAnswer(s, a, now, expected, revision);
      SoleRow(s, SoleId(s.trusted));
    }
  }

  // ----- triggers ---------------------------------------------------------------------------

  /** The trusted row, if any, has the revision captured before the lookup. */
  predicate Undisturbed(s: Store, snap: Snapshot) {
    forall id :: id in s.trusted ==> snap.trusted == Some(s.trusted[id].revision)
  }

  /** Which answers settle the trigger of a claimed installation; the others are retried. */
  predicate Settles(s: Store, a: Authoritative, snap: Snapshot)
    requires s.owner.Claimed?
  {
    && (a.user == s.owner.user || a.id !in s.trusted)
    && (a.user == s.owner.user ==> Undisturbed(s, snap))
    && (a.user == s.owner.user && a.id in s.trusted && s.trusted[a.id].established.Some? ==>
          s.trusted[a.id].established.value == a.established)
  }

  /** With the first connection that is taken over, a chat imported from an old installation gives way to its chat. */
  function ChatAdopted(owner: Owner, a: Authoritative): Owner
    requires owner.Claimed?
  {
    if owner.source == LegacyFallback && a.chat.Some? then owner.(chat := a.chat.value, source := FromConnection)
    else owner
  }

  /** What a settled trigger makes of the store. */
  predicate SettledBy(s: Store, t: Store, a: Authoritative, snap: Snapshot, now: int)
    requires s.owner.Claimed?
  {
    if a.user == s.owner.user && Fits(s, a, snap.trusted) then
      TakenOver(s, t.(owner := s.owner), a) && t.owner == ChatAdopted(s.owner, a)
    else if a.user == s.owner.user && Rivals(s, a, snap.trusted) then
      && t.owner.Claimed? && BothRetained(s, t.(owner := s.owner.(floor := t.owner.floor)), a, now)
      && t.owner == ChatAdopted(s.owner.(floor := t.owner.floor), a)
    else t == s
  }

  /** The transaction keeps a write that says something, and undoes one that met a changed row or its own row's. */
  lemma WriteSettles(s: Store, t: Store, w: TrustedWrite, a: Authoritative, snap: Snapshot, now: int)
    requires s.owner.Claimed? && t.owner.Claimed? && WellFormed(a) && a.user == s.owner.user && AtMostOne(s.trusted)
    requires OwnerSound(t.owner) && t.owner.user == s.owner.user && w != StorageFailure
    requires snap.trustedId == Some(a.id) <==> a.id in s.trusted
    requires snap.trusted.Some? <==> s.trusted != map[]
    requires Adopts(w) <==> Fits(s, a, snap.trusted)
    requires w == Ambiguous <==> Rivals(s, a, snap.trusted)
    requires Fits(s, a, snap.trusted) ==> TakenOver(s, t, a)
    requires Rivals(s, a, snap.trusted) ==> BothRetained(s, t, a, now)
    requires !Fits(s, a, snap.trusted) && !Rivals(s, a, snap.trusted) ==> OnlyNarrowed(s, t, a, snap.trusted)
    requires w == RevisionConflict <==> s.trusted != map[] && !Undisturbed(s, snap)
    ensures var r := SettleWrite(t, w, a, snap.trustedId == Some(a.id));
            (r.Some? <==> Settles(s, a, snap)) && (r.Some? ==> SettledBy(s, r.value, a, snap, now))
  {
    if s.trusted != map[] { SoleRow(s, SoleId(s.trusted)); }
  }

  lemma ApplyClaimedExactly(s: Store, a: Authoritative, snap: Snapshot, now: int)
    requires StoreSound(s) && s.owner.Claimed? && WellFormed(a) && SnapshotSound(s, a.id, snap)
    ensures var r := ApplyClaimed(s, a, snap, now);
            (r.Some? <==> Settles(s, a, snap)) && (r.Some? ==> SettledBy(s, r.value, a, snap, now))
  {
    if s.trusted != map[] { SoleRow(s, SoleId(s.trusted)); }
    if a.user == s.owner.user {
      OwnAnswerSettles(s, a, snap, now);
    } else {
      ForeignAnswer(s, a, snap, now);
    }
  }

  lemma ForeignAnswer(s: Store, a: Authoritative, snap: Snapshot, now: int)
    requires s.owner.Claimed? && a.user != s.owner.user
    ensures ApplyClaimed(s, a, snap, now) == if snap.trustedId == Some(a.id) then None else Some(s)
  {
  }

  lemma OwnAnswerSettles(s: Store, a: Authoritative, snap: Snapshot, now: int)
    requires StoreSound(s) && s.owner.Claimed? && WellFormed(a) && SnapshotSound(s, a.id, snap)
    requires a.user == s.owner.user
    ensures var r := ApplyClaimed(s, a, snap, now);
            (r.Some? <==> Settles(s, a, snap)) && (r.Some? ==> SettledBy(s, r.value, a, snap, now))
  {
    var (t, w) := Reconcile(s, a, now, snap.trusted, snap.candidate, snap.guard);
    if s.trusted != map[] { SoleRow(s, SoleId(s.trusted)); }
    AnswerIsJudgedExactly(s, a, now, snap.trusted);
    ReconcileSound(s, a, now, snap.trusted, snap.candidate, snap.guard);
    WriteSettles(s, t, w, a, snap, now);
  }

  /**
   For an installation with an Owner: which answers settle a trigger, and what
   exactly a settled trigger leaves behind; otherwise only the lookup has ended.
   */
  lemma TriggerSettlesExactly(s: Sys, a: Authoritative, now: int)
    requires Inv(s) && CanStep(s, FinishTrigger(Found(a), now)) && s.store.owner.Claimed?
    ensures var t := Next(s, FinishTrigger(Found(a), now));
            if Settles(s.store, a, s.work.snap)
            then && SettledBy(s.store, t.store, a, s.work.snap, now)
                 && t == s.(work := Idle, store := t.store,
                            log := s.log[s.work.update := s.log[s.work.update].(applied := true)])
            else t == s.(work := Idle)
  {
    ApplyClaimedExactly(s.store, a, s.work.snap, now);
  }

  /** A connection that Telegram no longer knows: its row is retired into the floor, or kept if it has moved on. */
  predicate Retired(s: Store, t: Store, id: ConnId)
    requires s.owner.Claimed? && id in s.trusted
  {
    && t.trusted == s.trusted - {id} && t.candidates == s.candidates && t.guard == s.guard && t.gate == s.gate
    && t.owner.Claimed? && t.owner == s.owner.(floor := t.owner.floor) && t.owner.floor.Some?
    && var generation := if s.trusted[id].established.Some? then s.trusted[id].established.value
                         else if s.owner.boundAt < 1 then 1 else s.owner.boundAt;
       t.owner.floor.value == (if s.owner.floor.Some? && generation < s.owner.floor.value then s.owner.floor.value
                               else generation)
  }

  lemma RetiresExactly(s: Store, id: ConnId, expected: int)
    requires StoreSound(s)
    ensures var (t, w) := Retire(s, id, expected);
            if id !in s.trusted then t == s.(candidates := s.candidates - {id}) && w == Reconciled
            else if s.trusted[id].revision == expected then Retired(s, t, id) && w == Reconciled
            else t == s && w == RevisionConflict
  {
  }

  lemma NotFoundSettlesExactly(s: Sys, now: int)
    requires Inv(s) && CanStep(s, FinishTrigger(NotFound, now))
    ensures var t, id := Next(s, FinishTrigger(NotFound, now)), s.work.id;
            if Undisturbed(s.store, s.work.snap) || id !in s.store.trusted
            then && t == s.(work := Idle, store := t.store,
                            log := s.log[s.work.update := s.log[s.work.update].(applied := true)])
                 && (if id in s.store.trusted then Retired(s.store, t.store, id)
                     else t.store == s.store.(candidates := s.store.candidates - {id}))
            else t == s.(work := Idle)
  {
    if s.store.trusted != map[] { SoleRow(s.store, SoleId(s.store.trusted)); }
    RetiresExactly(s.store, s.work.id, s.work.snap.trusted.GetOr(0));
  }

  lemma FailedLookupWaits(s: Sys, now: int)
    requires CanStep(s, FinishTrigger(OtherError, now))
    ensures Next(s, FinishTrigger(OtherError, now)) == s.(work := Idle)
  {
  }

  /** What an unclaimed installation makes of an answer, before the table is pruned. */
  function Observed(candidates: map<ConnId, Candidate>, a: Authoritative, now: int): map<ConnId, Candidate> {
    if a.id !in candidates then
      candidates[a.id := Candidate(a.user, a.chat, a.rights, a.enabled, a.established, 0, now)]
    else if candidates[a.id].user != a.user || candidates[a.id].established != a.established then candidates - {a.id}
    else
      candidates[a.id := Candidate(a.user, a.chat, a.rights, a.enabled, a.established, candidates[a.id].revision + 1,
                                   now)]
  }

  /** The newest generation is remembered once candidates have been dropped for space, and the mark only rises. */
  function GuardAfter(g: Guard, generation: int): Guard {
    if g.overflow.None? then g else Guard(Some(Max(g.overflow.value, generation)), g.revision + 1)
  }

  lemma ObservedExactly(s: Store, a: Authoritative, now: int)
    requires WellFormed(a)
    ensures var (t, w) := ApplyCandidate(s, a, now, CandidateRevision(s, a.id));
            && t == s.(candidates := Observed(s.candidates, a, now), guard := GuardAfter(s.guard, a.established))
            && w != CandidateRevisionConflict && w != CandidateRefused
  {
  }

  lemma UnclaimedCommits(s: Store, a: Authoritative, snap: Snapshot, now: int)
    requires WellFormed(a) && snap.candidate == CandidateRevision(s, a.id)
    ensures var seen := s.(candidates := Observed(s.candidates, a, now), guard := GuardAfter(s.guard, a.established));
            ApplyUnclaimed(s, a, snap, now) == Some(Prune(seen, now - CANDIDATE_RETENTION, CANDIDATE_LIMIT))
  {
    ObservedExactly(s, a, now);
  }

  lemma SettledExactly(s: Sys, committed: Option<Store>)
    requires Inv(s) && s.work.TriggerLookup? && committed.Some?
    ensures SettleTrigger(s, committed)
            == s.(work := Idle, store := committed.value,
                  log := s.log[s.work.update := s.log[s.work.update].(applied := true)])
  {
  }

  /** Every answer to an unclaimed installation settles its trigger: a candidate is added, refreshed or dropped. */
  lemma CandidateIsObserved(s: Sys, a: Authoritative, now: int)
    requires Inv(s) && CanStep(s, FinishTrigger(Found(a), now)) && s.store.owner.Unclaimed?
    ensures var t := Next(s, FinishTrigger(Found(a), now));
            var seen := s.store.(candidates := Observed(s.store.candidates, a, now),
                                 guard := GuardAfter(s.store.guard, a.established));
            t == s.(work := Idle, store := Prune(seen, now - CANDIDATE_RETENTION, CANDIDATE_LIMIT),
                    log := s.log[s.work.update := s.log[s.work.update].(applied := true)])
  {
    UnclaimedCommits(s.store, a, s.work.snap, now);
    SettledExactly(s, ApplyFound(s.store, a, s.work.snap, now));
  }

  /** Some fresh candidate, and the newest of them. */
  predicate NewestFresh(live: map<ConnId, Candidate>, generation: int) {
    && (exists id :: id in live && live[id].established == generation)
    && forall id :: id in live ==> live[id].established <= generation
  }

  /** Pruning drops old rows, and above the limit the worst-ranked ones; only then the guard moves, to the newest. */
  lemma PrunesExactly(s: Store, cutoff: int, limit: nat)
    ensures var t := Prune(s, cutoff, limit);
            var live := map id | id in s.candidates && cutoff <= s.candidates[id].observed :: s.candidates[id];
            && t == s.(candidates := t.candidates, guard := t.guard)
            && (forall id :: id in t.candidates ==> id in live && t.candidates[id] == live[id])
            && IsTop(Generations(live), t.candidates.Keys, limit)
            && (|live| <= limit ==> t.candidates == live && t.guard == s.guard)
            && (limit < |live| ==>
                  && t.guard.revision == s.guard.revision + 1 && t.guard.overflow.Some?
                  && (NewestFresh(live, t.guard.overflow.value) || t.guard.overflow == s.guard.overflow)
                  && (s.guard.overflow.Some? ==> s.guard.overflow.value <= t.guard.overflow.value)
                  && forall id :: id in live ==> live[id].established <= t.guard.overflow.value)
  {
    PruneKeepsTheTop(s, cutoff, limit);
    var live := map id | id in s.candidates && cutoff <= s.candidates[id].observed :: s.candidates[id];
    assert live == Fresh(s.candidates, cutoff);
    forall id | id in live ensures live[id].established in GenerationSet(live) {}
  }

  // ----- start-up -----------------------------------------------------------------------------

  /** The start-up lookup is done with its connection exactly when the answer was taken over or the row retired. */
  lemma StartupSettlesExactly(s: Sys, r: LookupResult, now: int)
    requires Inv(s) && CanStep(s, FinishStartup(r, now)) && s.store.owner.Claimed?
    ensures var t, snap := Next(s, FinishStartup(r, now)), s.work.snap;
            && t == s.(work := Idle, store := t.store, startup := t.startup)
            && (t.startup == s.startup || t.startup.None?)
            && match r
               case OtherError => t.store == s.store && t.startup == s.startup
               case AuthenticationFailed => Fenced(s.store, t.store) && t.startup == s.startup
               case NotFound =>
                 if s.work.id !in s.store.trusted then
                   t.store == s.store.(candidates := s.store.candidates - {s.work.id}) && t.startup.None?
                 else if Undisturbed(s.store, snap) then Retired(s.store, t.store, s.work.id) && t.startup.None?
                 else t.store == s.store && t.startup == s.startup
               case Found(a) =>
                 if a.user != s.store.owner.user then t.store == s.store && t.startup == s.startup
                 else if Fits(s.store, a, snap.trusted) then TakenOver(s.store, t.store, a) && t.startup.None?
                 else && t.startup == s.startup
                      && if Rivals(s.store, a, snap.trusted) then BothRetained(s.store, t.store, a, now)
                         else OnlyNarrowed(s.store, t.store, a, snap.trusted)
  {
    if s.store.trusted != map[] { SoleRow(s.store, SoleId(s.store.trusted)); }
    if r.NotFound? { RetiresExactly(s.store, s.work.id, s.work.snap.trusted.GetOr(0)); }
    if r.Found? && r.answer.user == s.store.owner.user {
      AnswerIsJudgedExactly(s.store, r.answer, now, s.work.snap.trusted);
    }
  }

  /** A restart closes the gate, gates every trusted row and owes the trusted connection a lookup. */
  lemma RestartLeaves(s: Sys)
    requires Inv(s)
    ensures var t := Next(s, Restart);
            && t.log == s.log && t.work.Idle? && t.handle == s.store.owner
            && t.store.gate.state == Pending
            && t.store.gate.revision == s.store.gate.revision + (if s.store.gate.state == Pending then 0 else 1)
            && t.store.trusted.Keys == s.store.trusted.Keys
            && (forall id :: id in s.store.trusted ==>
                  var before, after := s.store.trusted[id], t.store.trusted[id];
                  && after == before.(confirmed := false, revision := after.revision)
                  && after.revision == before.revision + (if before.confirmed then 1 else 0))
            && t.store == s.store.(gate := t.store.gate, trusted := t.store.trusted)
            && (forall id :: id in s.store.trusted <==> t.startup == Some(id))
  {
    if s.store.trusted != map[] {
      SoleRow(s.store, SoleId(s.store.trusted));
      assert NormalizeStartup(s.store).trusted.Keys == s.store.trusted.Keys;
    }
  }

  /** The gate is open after a step exactly if it stays so, or was just published with nothing left to resolve. */
  lemma GateOpensExactly(s: Sys, step: Step)
    requires Inv(s) && CanStep(s, step)
    ensures Next(s, step).store.gate.state == Ready <==>
              || (s.store.gate.state == Ready && !step.Restart? && !AuthFails(step))
              || (step.PublishReady? && s.store.gate.state == Pending && s.startup.None?
                  && (forall u :: u in s.log ==> s.log[u].applied)
                  && forall id :: id in s.store.trusted ==> s.store.trusted[id].confirmed)
  {
    match step
    case FinishTrigger(r, now) =>
      if AuthFails(step) {
        AuthFailureFences(s, step);
      } else if TriggerCommit(s, r, now).Some? {
        TriggerKeepsGate(s, r, now);
      }
    case FinishStartup(r, now) =>
      if AuthFails(step) {
        AuthFailureFences(s, step);
      } else if r.Found? {
        OutcomeKeepsGate(s.store, r.answer, now, s.work.snap.trusted, s.work.snap.candidate, s.work.snap.guard);
      }
    case FinishClaim(r, now) =>
      if AuthFails(step) {
        AuthFailureCloses(s, step);
      } else {
        ClaimKeepsGate(s, r, now);
      }
    case _ =>
  }

  lemma ClaimKeepsGate(s: Sys, r: LookupResult, now: int)
    requires Inv(s) && CanStep(s, FinishClaim(r, now)) && !r.AuthenticationFailed?
    ensures DoFinishClaim(s, r, now).store.gate == s.store.gate
  {
    CommitKeepsGate(s.store, s.work.request, s.work.seen, r, now);
  }

  lemma CommitKeepsGate(s: Store, q: ClaimRequest, seen: ClaimSnapshot, r: LookupResult, now: int)
    requires !r.AuthenticationFailed?
    ensures var t := CommitClaim(s, q, seen, r, now); t.Some? ==> t.value.gate == s.gate
  {
    var pruned := Prune(s, now - CANDIDATE_RETENTION, CANDIDATE_LIMIT);
    forall owner: Owner | owner.Claimed? ensures BindAndSettle(pruned, owner, seen, s.gate, r).gate == pruned.gate {
      BindKeepsOwner(pruned, owner, seen, s.gate, r);
    }
  }

  // ----- single rows --------------------------------------------------------------------------

  /** A first delivery of a trigger records it and closes the effect gate of exactly its own row. */
  lemma RecordGates(s: Sys, u: int, id: ConnId, at: int)
    requires CanStep(s, Record(u, id, at))
    ensures var t := Next(s, Record(u, id, at));
            if u in s.log then t == s
            else && t.log == s.log[u := Trigger(id, false, at)]
                 && t == s.(log := t.log, store := s.store.(trusted := t.store.trusted))
                 && t.store.trusted.Keys == s.store.trusted.Keys
                 && forall k :: k in s.store.trusted ==>
                      var before, after := s.store.trusted[k], t.store.trusted[k];
                      if k == id && before.confirmed
                      then after == before.(confirmed := false, revision := before.revision + 1)
                      else after == before
  {
  }

  /** A rejected call disables exactly the connection it was made through. */
  lemma DisableCloses(s: Sys, id: ConnId)
    ensures var t := Next(s, OutboxDisable(id));
            && t == s.(store := s.store.(trusted := t.store.trusted))
            && t.store.trusted.Keys == s.store.trusted.Keys
            && forall k :: k in s.store.trusted ==>
                 var before, after := s.store.trusted[k], t.store.trusted[k];
                 if k == id then after == before.(enabled := false, revision := before.revision + 1)
                 else after == before
  {
  }

  /** An authorized command refreshes the cached Owner and replaces a chat imported from an old installation. */
  lemma OwnerCommandLeaves(s: Sys, user: int, chat: int, privateChat: bool)
    requires Inv(s) && CanStep(s, OwnerCommand(user, chat, privateChat))
    ensures var t, owner := Next(s, OwnerCommand(user, chat, privateChat)), s.store.owner;
            if owner.Claimed? && privateChat && user == owner.user && 0 < chat
               && (owner.source == LegacyFallback || chat == owner.chat)
            then && t == s.(store := s.store.(owner := t.store.owner), handle := t.store.owner)
                 && t.store.owner == (if owner.source != LegacyFallback then owner
                                      else owner.(chat := chat, source := FromPrivateMessage))
            else t == s
  {
  }

  // ----- undisturbed lookups ---------------------------------------------------------------------

  /**
   A lookup nobody interferes with, answered in agreement with the trusted row,
   confirms the row with what Telegram said and settles the trigger.
   */
  lemma UndisturbedLookupConfirms(s: Sys, u: int, a: Authoritative, now: int)
    requires Inv(s) && CanStep(s, BeginTrigger(u)) && s.store.owner.Claimed? && WellFormed(a)
    requires a.id == s.log[u].id && a.id in s.store.trusted && a.user == s.store.owner.user
    requires s.store.trusted[a.id].established in {None, Some(a.established)}
    ensures var looking := Next(s, BeginTrigger(u));
            && CanStep(looking, FinishTrigger(Found(a), now))
            && var t := Next(looking, FinishTrigger(Found(a), now));
               && t.work.Idle? && t.log == s.log[u := s.log[u].(applied := true)]
               && TakenOver(s.store, t.store.(owner := s.store.owner), a)
               && t.store.owner == ChatAdopted(s.store.owner, a)
  {
    SoleRow(s.store, a.id);
    var looking := Next(s, BeginTrigger(u));
    StepInv(s, BeginTrigger(u));
    TriggerSettlesExactly(looking, a, now);
  }

  /** The first connection of an installation without one is trusted if it is newer than everything remembered. */
  lemma UndisturbedLookupTrusts(s: Sys, u: int, a: Authoritative, now: int)
    requires Inv(s) && CanStep(s, BeginTrigger(u)) && s.store.owner.Claimed? && WellFormed(a)
    requires a.id == s.log[u].id && s.store.trusted == map[] && a.user == s.store.owner.user && Newest(s.store, a)
    ensures var t := Next(Next(s, BeginTrigger(u)), FinishTrigger(Found(a), now));
            TakenOver(s.store, t.store.(owner := s.store.owner), a)
  {
    var looking := Next(s, BeginTrigger(u));
    StepInv(s, BeginTrigger(u));
    TriggerSettlesExactly(looking, a, now);
  }

  lemma UndisturbedStartupConfirms(s: Sys, a: Authoritative, now: int)
    requires Inv(s) && CanStep(s, BeginStartup) && s.store.owner.Claimed? && WellFormed(a)
    requires Some(a.id) == s.startup && a.id in s.store.trusted && a.user == s.store.owner.user
    requires s.store.trusted[a.id].established in {None, Some(a.established)}
    ensures var looking := Next(s, BeginStartup);
            && CanStep(looking, FinishStartup(Found(a), now))
            && var t := Next(looking, FinishStartup(Found(a), now));
               TakenOver(s.store, t.store, a) && t.startup.None? && t.work.Idle?
  {
    SoleRow(s.store, a.id);
    var looking := Next(s, BeginStartup);
    StepInv(s, BeginStartup);
    StartupSettlesExactly(looking, Found(a), now);
  }

  // ----- the claim ----------------------------------------------------------------------------------

  /** The claimant's candidates that are young enough to count. */
  function OwnFresh(s: Store, user: int, now: int): map<ConnId, Candidate> {
    map id | id in s.candidates && s.candidates[id].user == user
             && now - CANDIDATE_RETENTION <= s.candidates[id].observed
      :: s.candidates[id]
  }

  /** More young candidates than fit: the claim's pruning will drop some. */
  predicate Overflows(s: Store, now: int) {
    CANDIDATE_LIMIT < |map id | id in s.candidates && now - CANDIDATE_RETENTION <= s.candidates[id].observed
                        :: s.candidates[id]|
  }

  /** Nothing has moved since the claim's snapshot, and Telegram confirms the one candidate there is. */
  predicate PromotionDue(s: Store, q: ClaimRequest, seen: ClaimSnapshot, r: LookupResult, now: int) {
    && r.Found? && r.answer.enabled && r.answer.user == q.user
    && s.gate.state == Ready && seen.gate == s.gate
    && s.guard.overflow.None? && seen.guard == s.guard && !Overflows(s, now)
    && OwnFresh(s, q.user, now).Keys == {r.answer.id} && seen.candidates.Keys == {r.answer.id}
    && s.candidates[r.answer.id].revision == seen.candidates[r.answer.id].revision
    && s.candidates[r.answer.id].established == r.answer.established
  }

  /** The date of the claim, or a generation it has seen. */
  predicate SeenGeneration(s: Store, q: ClaimRequest, seen: ClaimSnapshot, generation: int) {
    || generation == q.date
    || (exists id :: id in s.candidates && s.candidates[id].user == q.user
                     && s.candidates[id].established == generation)
    || (exists id :: id in seen.candidates && seen.candidates[id].established == generation)
    || s.guard.overflow == Some(generation) || seen.guard.overflow == Some(generation)
  }

  lemma ClaimFloorIsGreatest(s: Store, q: ClaimRequest, seen: ClaimSnapshot)
    ensures var floor := ClaimFloor(q.date, seen.candidates, CandidatesOf(s.candidates, q.user), seen.guard, s.guard);
            SeenGeneration(s, q, seen, floor) && forall g :: SeenGeneration(s, q, seen, g) ==> g <= floor
  {
    var own := CandidatesOf(s.candidates, q.user);
    var all := FloorCandidates(q.date, seen.candidates, own, seen.guard, s.guard);
    forall g | SeenGeneration(s, q, seen, g) ensures g in all {
      if id :| id in s.candidates && s.candidates[id].user == q.user && s.candidates[id].established == g {
        assert own[id].established in GenerationSet(own);
      }
      if id :| id in seen.candidates && seen.candidates[id].established == g {
        assert seen.candidates[id].established in GenerationSet(seen.candidates);
      }
    }
    var floor := ClaimFloor(q.date, seen.candidates, own, seen.guard, s.guard);
    if floor in GenerationSet(own) {
      var id :| id in own && own[id].established == floor;
      assert id in s.candidates && s.candidates[id].user == q.user && s.candidates[id].established == floor;
    }
    if floor in GenerationSet(seen.candidates) {
      var id :| id in seen.candidates && seen.candidates[id].established == floor;
    }
  }

  lemma PrunedOwn(s: Store, user: int, now: int)
    ensures var pruned := Prune(s, now - CANDIDATE_RETENTION, CANDIDATE_LIMIT);
            && (Overflows(s, now) <==> pruned.guard != s.guard)
            && (Overflows(s, now) ==> pruned.guard.overflow.Some?)
            && (!Overflows(s, now) ==> CandidatesOf(pruned.candidates, user) == OwnFresh(s, user, now))
  {
    PrunesExactly(s, now - CANDIDATE_RETENTION, CANDIDATE_LIMIT);
  }

  lemma SoleKey(m: map<ConnId, Candidate>)
    ensures |m| == 1 <==> exists id :: m.Keys == {id}
  {
    assert |m| == |m.Keys|;
    if |m| == 1 {
      var id :| id in m;
      assert |m.Keys - {id}| == 0;
      assert m.Keys == {id};
    }
  }

  lemma PromotesExactly(s: Store, q: ClaimRequest, owner: Owner, seen: ClaimSnapshot, r: LookupResult, now: int)
    requires StoreSound(s) && s.owner.Unclaimed? && owner.Claimed? && owner.user == q.user
    requires r.Found? ==> WellFormed(r.answer)
    ensures var pruned := Prune(s, now - CANDIDATE_RETENTION, CANDIDATE_LIMIT).(owner := owner);
            var current := CandidatesOf(pruned.candidates, q.user);
            var (t, promoted) := TryPromote(pruned, seen, s.gate, current, r);
            && (promoted <==> PromotionDue(s, q, seen, r, now))
            && (promoted ==> TakenOver(pruned, t, r.answer))
            && (!promoted ==> t == pruned)
  {
    var pruned := Prune(s, now - CANDIDATE_RETENTION, CANDIDATE_LIMIT).(owner := owner);
    var current := CandidatesOf(pruned.candidates, q.user);
    PrunedOwn(s, q.user, now);
    PruneSound(s, now - CANDIDATE_RETENTION, CANDIDATE_LIMIT);
    SoleKey(seen.candidates);
    SoleKey(current);
    if PromotionDue(s, q, seen, r, now) {
      assert current.Keys == {r.answer.id} && r.answer.id in current;
    }
    if r.Found? && TryPromote(pruned, seen, s.gate, current, r).1 {
      InstalledRow(pruned, r.answer, current[r.answer.id].revision + 1);
    }
  }

  /** The bound store: one trusted candidate, several kept ones, or none. */
  predicate Bound(s: Store, t: Store, q: ClaimRequest, seen: ClaimSnapshot, r: LookupResult, now: int) {
    && (t.trusted != map[] <==> PromotionDue(s, q, seen, r, now))
    && (PromotionDue(s, q, seen, r, now) ==>
          && t.trusted.Keys == {r.answer.id} && Mirrors(t.trusted[r.answer.id], r.answer)
          && t.trusted[r.answer.id].revision == s.candidates[r.answer.id].revision + 1
          && t.candidates == map[])
    && (t.trusted == map[] ==>
          t.candidates == if s.guard.overflow.None? && !Overflows(s, now) && 2 <= |OwnFresh(s, q.user, now)|
                          then OwnFresh(s, q.user, now) else map[])
  }

  lemma BindsExactly(s: Store, q: ClaimRequest, owner: Owner, seen: ClaimSnapshot, r: LookupResult, now: int)
    requires StoreSound(s) && s.owner.Unclaimed? && owner.Claimed? && owner.user == q.user
    requires r.Found? ==> WellFormed(r.answer)
    ensures var pruned := Prune(s, now - CANDIDATE_RETENTION, CANDIDATE_LIMIT);
            Bound(s, BindAndSettle(pruned, owner, seen, s.gate, r), q, seen, r, now)
  {
    PromotesExactly(s, q, owner, seen, r, now);
    PrunedOwn(s, q.user, now);
    PruneSound(s, now - CANDIDATE_RETENTION, CANDIDATE_LIMIT);
    if r.AuthenticationFailed? { AuthBinds(s, q, owner, seen, r, now); }
  }

  lemma AuthBinds(s: Store, q: ClaimRequest, owner: Owner, seen: ClaimSnapshot, r: LookupResult, now: int)
    requires StoreSound(s) && s.owner.Unclaimed? && owner.Claimed? && owner.user == q.user && r.AuthenticationFailed?
    ensures var pruned := Prune(s, now - CANDIDATE_RETENTION, CANDIDATE_LIMIT);
            Bound(s, BindAndSettle(pruned, owner, seen, s.gate, r), q, seen, r, now)
  {
    PrunedOwn(s, q.user, now);
    PruneSound(s, now - CANDIDATE_RETENTION, CANDIDATE_LIMIT);
  }

  lemma CommitsBound(s: Store, q: ClaimRequest, seen: ClaimSnapshot, r: LookupResult, now: int)
    requires StoreSound(s) && s.owner.Unclaimed? && 0 < q.user && 0 < q.chat && 0 < q.date
    requires r.Found? ==> WellFormed(r.answer)
    ensures var t := CommitClaim(s, q, seen, r, now);
            && t.Some? && Bound(s, t.value, q, seen, r, now)
            && t.value.owner.Claimed? && t.value.owner.floor.Some?
            && t.value.owner == Claimed(q.user, q.chat, FromClaim, t.value.owner.floor, now)
            && SeenGeneration(s, q, seen, t.value.owner.floor.value)
            && forall g :: SeenGeneration(s, q, seen, g) ==> g <= t.value.owner.floor.value
  {
    ClaimFloorIsGreatest(s, q, seen);
    CommitClaimSound(s, q, seen, r, now);
    var floor := ClaimFloor(q.date, seen.candidates, CandidatesOf(s.candidates, q.user), seen.guard, s.guard);
    var owner := ClaimOwner(s.owner, q.user, q.chat, floor, now).value;
    BindsExactly(s, q, owner, seen, r, now);
    BindKeepsOwner(Prune(s, now - CANDIDATE_RETENTION, CANDIDATE_LIMIT), owner, seen, s.gate, r);
  }

  lemma BindKeepsOwner(pruned: Store, owner: Owner, seen: ClaimSnapshot, gate: Gate, r: LookupResult)
    requires owner.Claimed?
    ensures BindAndSettle(pruned, owner, seen, gate, r).owner == owner
    ensures !r.AuthenticationFailed? ==> BindAndSettle(pruned, owner, seen, gate, r).gate == pruned.gate
  {
  }

  /**
   The claim binds the claimant, with the newest generation seen as the floor.
   It trusts exactly the one confirmed candidate, if nothing has moved since its
   snapshot, and otherwise keeps the claimant's candidates only if they are
   several and nothing has been dropped for space.
   */
  lemma ClaimSettlesExactly(s: Sys, r: LookupResult, now: int)
    requires Inv(s) && CanStep(s, FinishClaim(r, now))
    ensures var t, q, seen := Next(s, FinishClaim(r, now)), s.work.request, s.work.seen;
            && t == s.(work := Idle, store := t.store, handle := t.store.owner)
            && t.store.owner.Claimed? && t.store.owner.floor.Some?
            && t.store.owner == Claimed(q.user, q.chat, FromClaim, t.store.owner.floor, now)
            && SeenGeneration(s.store, q, seen, t.store.owner.floor.value)
            && (forall g :: SeenGeneration(s.store, q, seen, g) ==> g <= t.store.owner.floor.value)
            && Bound(s.store, t.store, q, seen, r, now)
  {
    CommitsBound(s.store, s.work.request, s.work.seen, r, now);
  }

  /** A claim is refused exactly once somebody is bound, or if its user, chat or floor is not positive. */
  lemma ClaimsExactlyOnce(s: Store, q: ClaimRequest, seen: ClaimSnapshot, r: LookupResult, now: int)
    ensures CommitClaim(s, q, seen, r, now).Some? <==>
              && s.owner.Unclaimed? && 0 < q.user && 0 < q.chat
              && exists g :: SeenGeneration(s, q, seen, g) && 0 < g
  {
    ClaimFloorIsGreatest(s, q, seen);
  }

  /** A claim that asks about the claimant's only candidate and hears that it is enabled and unchanged trusts it. */
  lemma ClaimOfSoleCandidateTrusts(s: Sys, q: ClaimRequest, a: Authoritative, now: int)
    requires Inv(s) && CanStep(s, BeginClaim(q, now)) && WellFormed(a) && a.enabled && a.user == q.user
    requires s.store.gate.state == Ready && s.store.guard.overflow.None? && !Overflows(s.store, now)
    requires OwnFresh(s.store, q.user, now).Keys == {a.id} && s.store.candidates[a.id].established == a.established
    ensures var asking := Next(s, BeginClaim(q, now));
            && ClaimAsksTelegram(asking.work.seen) && CanStep(asking, FinishClaim(Found(a), now))
            && var t := Next(asking, FinishClaim(Found(a), now));
               t.store.trusted.Keys == {a.id} && Mirrors(t.store.trusted[a.id], a) && t.store.owner.user == q.user
  {
    var asking := Next(s, BeginClaim(q, now));
    StepInv(s, BeginClaim(q, now));
    var seen := asking.work.seen;
    assert seen.candidates == OwnFresh(s.store, q.user, now);
    SoleKey(seen.candidates);
    ClaimSettlesExactly(asking, Found(a), now);
  }

  // ----- reading the state -----------------------------------------------------------------------------

  /** Exactly when a Business call may be made. */
  lemma RightsCheckExactly(s: Store, id: ConnId, required: RequiredRight)
    ensures EnsureRight(s, id, required) <==>
              && s.gate.state == Ready && id in s.trusted && s.trusted[id].confirmed && s.trusted[id].enabled
              && (required == Reply ==> s.trusted[id].rights.reply)
              && (required == Read ==> s.trusted[id].rights.read)
              && (required == DeleteAll ==> s.trusted[id].rights.deleteAll)
  {
  }

  /** What readiness reports when it does not fail. */
  lemma ReadinessReportsExactly(s: Store, now: int)
    requires StoreSound(s) && ClassifyReadiness(s, now).Some?
    ensures var (claimed, health) := ClassifyReadiness(s, now).value;
            var live := map id | id in s.candidates && now - CANDIDATE_RETENTION <= s.candidates[id].observed
                        :: s.candidates[id];
            && claimed == s.owner.Claimed?
            && (health == Enabled <==> exists id :: id in s.trusted && s.trusted[id].enabled
                                         && s.trusted[id].rights == Rights(true, true, true, true))
            && (health == Disabled <==> exists id :: id in s.trusted && !s.trusted[id].enabled)
            && (health == RightsIncomplete <==> exists id :: id in s.trusted && s.trusted[id].enabled
                                                  && s.trusted[id].rights != Rights(true, true, true, true))
            && (health == AmbiguousConnection <==> s.trusted == map[] && (s.guard.overflow.Some? || 1 < |live|))
            && (health == CandidateOnly <==> s.trusted == map[] && s.guard.overflow.None? && |live| == 1)
            && (health == Missing <==> s.trusted == map[] && s.guard.overflow.None? && live == map[])
  {
    var live := map id | id in s.candidates && now - CANDIDATE_RETENTION <= s.candidates[id].observed
                :: s.candidates[id];
    assert live == Fresh(s.candidates, now - CANDIDATE_RETENTION);
    if s.trusted != map[] { SoleRow(s, SoleId(s.trusted)); }
  }

  /** The import of an old installation: no connection, exactly one with a positive owner, or a refusal. */
  lemma ImportsExactly(trusted: map<ConnId, Trusted>, now: int)
    ensures var r := InitializeOwner(trusted, now);
            && (r == Some(Unclaimed) <==> trusted == map[])
            && (r.Some? && r.value.Claimed? <==> exists id :: trusted.Keys == {id} && 0 < trusted[id].owner)
            && (forall id :: trusted.Keys == {id} && 0 < trusted[id].owner ==>
                  r == Some(Claimed(trusted[id].owner, trusted[id].owner, LegacyFallback, None, now)))
  {
    if trusted != map[] && AtMostOne(trusted) {
      assert trusted.Keys == {SoleId(trusted)};
    }
  }

  // ----- writes at stale revisions, and on tables no run leaves behind --------------------------------------

  /** An answer is refused without a trace if guard or candidate have moved on, or the Owner is another one. */
  lemma StaleAnswersAreRefused(s: Store, a: Authoritative, now: int, expected: Option<int>, ec: Option<int>, eg: int)
    requires WellFormed(a)
    ensures var known := if a.id in s.candidates then Some(s.candidates[a.id].revision) else None;
            var r := Reconcile(s, a, now, expected, ec, eg);
            if eg != s.guard.revision || ec != known then r == (s, RevisionConflict)
            else if s.owner.Unclaimed? || s.owner.user != a.user then r == (s, UserConflict)
            else if exists k, l :: k in s.trusted && l in s.trusted && k != l then r == (s, StorageFailure)
            else true
  {
  }

  /** At the current revision an answer by another user or of another date disables and gates the row. */
  lemma ConflictsClose(s: Store, a: Authoritative, expected: Option<int>)
    requires a.id in s.trusted
    ensures var (t, w) := ReconcileSame(s, a, expected);
            var row := s.trusted[a.id];
            if expected != Some(row.revision) then w == RevisionConflict
            else if row.owner != a.user || row.established !in {None, Some(a.established)} then
              && w == (if row.owner != a.user then UserConflict else GenerationConflict)
              && t == s.(trusted := s.trusted[a.id := row.(enabled := false, confirmed := false,
                                                           revision := row.revision + 1)])
            else w == Reconciled
  {
  }

  /** A row of somebody else under another ID is never replaced. */
  lemma ForeignRowsStay(s: Store, a: Authoritative, now: int, revision: int)
    requires s.owner.Claimed? && s.trusted != map[] && AtMostOne(s.trusted)
    requires s.trusted[SoleId(s.trusted)].owner != a.user
    ensures ReconcileOther(s, a, now, Some(s.trusted[SoleId(s.trusted)].revision), revision) == (s, UserConflict)
  {
  }

  /** Every write of a candidate: added, refreshed at the expected revision, dropped on a conflict, or left alone. */
  lemma CandidateWritesExactly(s: Store, a: Authoritative, now: int, expected: Option<int>)
    requires WellFormed(a)
    ensures var (t, w) := ApplyCandidate(s, a, now, expected);
            var known := a.id in s.candidates;
            var conflict := known && (s.candidates[a.id].user != a.user
                                      || s.candidates[a.id].established != a.established);
            var current := expected == if known then Some(s.candidates[a.id].revision) else None;
            && t == s.(candidates := if conflict || current then Observed(s.candidates, a, now) else s.candidates,
                       guard := GuardAfter(s.guard, a.established))
            && (w == CandidateInserted <==> !known && current)
            && (w == CandidateReconciled <==> known && !conflict && current)
            && (w == CandidateUserConflict <==> known && s.candidates[a.id].user != a.user)
            && (w == CandidateGenerationConflict <==> conflict && s.candidates[a.id].user == a.user)
            && (w == CandidateRevisionConflict <==> !conflict && !current)
  {
  }

  /** The promotion inside the claim: exactly at the expected revisions, for the Owner's own unchanged candidate. */
  lemma ClaimPromotionExactly(s: Store, a: Authoritative, ec: int, eg: int)
    requires WellFormed(a)
    ensures var (t, w) := PromoteClaimCandidate(s, a, ec, eg);
            && (w == Installed <==>
                  && s.guard == Guard(None, eg) && s.owner.Claimed? && s.owner.user == a.user && s.trusted == map[]
                  && a.id in s.candidates && s.candidates[a.id].revision == ec
                  && s.candidates[a.id].user == a.user && s.candidates[a.id].established == a.established)
            && (w == Installed ==> TakenOver(s, t, a)) && (w != Installed ==> t == s)
            && var known := a.id in s.candidates && s.candidates[a.id].revision == ec;
               var ours := s.guard == Guard(None, eg) && s.owner.Claimed? && s.owner.user == a.user;
               && (w == StorageFailure <==> ours && !AtMostOne(s.trusted))
               && (w == RevisionConflict <==>
                     s.guard != Guard(None, eg) || (ours && AtMostOne(s.trusted) && (s.trusted != map[] || !known)))
               && (w == GenerationConflict <==>
                     && ours && s.trusted == map[] && known && s.candidates[a.id].user == a.user
                     && s.candidates[a.id].established != a.established)
  {
    if PromoteClaimCandidate(s, a, ec, eg).1 == Installed { InstalledRow(s, a, ec + 1); }
  }

  /** A retirement at another revision, or of a row that is not the Owner's, is refused. */
  lemma RetirementRefusedExactly(s: Store, id: ConnId, expected: int)
    requires id in s.trusted
    ensures var (t, w) := Retire(s, id, expected);
            && (w == RevisionConflict <==> s.trusted[id].revision != expected)
            && (w == UserConflict <==> s.trusted[id].revision == expected
                                       && (s.owner.Unclaimed? || s.owner.user != s.trusted[id].owner))
            && (w != Reconciled ==> t == s)
            && (w == Reconciled ==> Retired(s, t, id))
  {
  }

  /** The floor of a bound Owner rises to a positive generation; nothing else is accepted. */
  lemma FloorRisesExactly(owner: Owner, generation: int)
    ensures var r := AdvanceFloor(owner, generation);
            && (r.Some? <==> owner.Claimed? && 0 < generation)
            && (r.Some? ==>
                  r.value == owner.(floor := Some(if owner.floor.Some? && generation < owner.floor.value
                                                  then owner.floor.value else generation)))
  {
  }

  /** Only an imported chat is replaced, by a positive chat of the Owner's from a connection or a private message. */
  lemma ChatPromotesExactly(owner: Owner, user: int, chat: int, source: ChatSource)
    ensures var r := PromoteChat(owner, user, chat, source);
            && (r.Some? <==> owner.Claimed? && owner.user == user && 0 < user && 0 < chat
                             && source in {FromConnection, FromPrivateMessage})
            && (r.Some? ==> r.value == if owner.source == LegacyFallback then owner.(chat := chat, source := source)
                                       else owner)
  {
  }

  /** The history pass deletes exactly the triggers that are a week old and unnamed. */
  lemma TriggersForgottenExactly(s: Sys, now: int, named: set<int>, u: int)
    requires CanStep(s, Purge(now, named))
    ensures var t := Next(s, Purge(now, named));
            && t == s.(log := t.log)
            && (u in t.log <==> u in s.log && (now - 7 * 86400 < s.log[u].at || u in named))
            && (u in t.log ==> t.log[u] == s.log[u])
  {
  }

  /** An answer at a stale candidate revision is retried, unless it conflicts with the candidate itself. */
  lemma StaleCandidateRetries(s: Store, a: Authoritative, snap: Snapshot, now: int)
    requires WellFormed(a)
    ensures var known := a.id in s.candidates;
            var conflict := known && (s.candidates[a.id].user != a.user
                                      || s.candidates[a.id].established != a.established);
            ApplyUnclaimed(s, a, snap, now).None? <==>
              !conflict && snap.candidate != if known then Some(s.candidates[a.id].revision) else None
  {
    CandidateWritesExactly(s, a, now, snap.candidate);
  }

  /** The parser lets an ordinary private message of the cached Owner through, and if his chat is known only from it. */
  lemma ParserAcceptsExactly(handle: Owner, ordinary: bool, user: int, chat: int, privateChat: bool)
    ensures ParserAccepts(handle, ordinary, user, chat, privateChat) <==>
              && handle.Claimed? && handle.user == user && ordinary && privateChat && chat >= 1
              && (handle.source in {FromClaim, FromConnection, FromPrivateMessage} ==> handle.chat == chat)
  {
  }
}
