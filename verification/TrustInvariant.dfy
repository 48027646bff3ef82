/** The inductive invariant of the trust protocol and its preservation by every step. */
module TrustInvariant {
  import opened Prelude
  import opened Ranking
  import opened Trust
  import opened TrustSystem

  // ----- the invariant --------------------------------------------------------------

  predicate OwnerSound(owner: Owner) {
    owner.Claimed? ==> 0 < owner.user && 0 < owner.chat && (owner.floor.Some? ==> 0 < owner.floor.value)
  }

  /** Every trusted row belongs to the Owner. */
  predicate TrustedSound(s: Store) {
    && AtMostOne(s.trusted)
    && (s.owner.Unclaimed? ==> s.trusted == map[])
    && forall id :: id in s.trusted ==>
         && s.owner.Claimed?
         && s.trusted[id].owner == s.owner.user
         && (s.trusted[id].established.Some? ==> 0 < s.trusted[id].established.value)
  }

  /** After the claim every candidate is the Owner's and lies at or below the floor. */
  predicate CandidatesSound(s: Store) {
    && s.trusted.Keys !! s.candidates.Keys
    && (forall id :: id in s.candidates ==> 0 < s.candidates[id].established)
    && (s.owner.Claimed? ==> forall id :: id in s.candidates ==>
          && s.candidates[id].user == s.owner.user
          && s.owner.floor.Some?
          && s.candidates[id].established <= s.owner.floor.value)
  }

  predicate StoreSound(s: Store) {
    OwnerSound(s.owner) && TrustedSound(s) && CandidatesSound(s)
  }

  /** During a lookup only the trusted row's flags and revision can have moved on. */
  predicate SnapshotSound(s: Store, id: ConnId, snap: Snapshot) {
    && snap.owner == s.owner
    && snap.candidate == CandidateRevision(s, id)
    && snap.guard == s.guard.revision
    && snap.trustedId.Some? == snap.trusted.Some?
    && (snap.trustedId.None? ==> s.trusted == map[])
    && (snap.trustedId.Some? ==>
          && snap.trustedId.value in s.trusted
          && snap.trusted.value <= s.trusted[snap.trustedId.value].revision)
  }

  predicate WorkSound(s: Sys) {
    match s.work
    case Idle => true
    case TriggerLookup(u, id, snap) =>
      Recorded(s.log, u) && s.log[u].id == id && SnapshotSound(s.store, id, snap)
    case StartupLookup(id, snap) =>
      s.startup == Some(id) && SnapshotSound(s.store, id, snap)
    case ClaimLookup(q, seen) =>
      s.store.owner.Unclaimed? && 0 < q.user && 0 < q.chat && 0 < q.date
  }

  /** The cached Owner has the stored user and is stale only while it is the permissive fallback. */
  predicate HandleSound(handle: Owner, owner: Owner) {
    && handle.Claimed? == owner.Claimed?
    && (owner.Claimed? ==>
          && handle.user == owner.user
          && (handle.source == LegacyFallback || (handle.chat == owner.chat && handle.source == owner.source)))
  }

  predicate Inv(s: Sys) {
    && StoreSound(s.store)
    && WorkSound(s)
    && HandleSound(s.handle, s.store.owner)
    && (s.startup.Some? ==> s.store.gate.state != Ready)
  }

  // ----- what each write does to a sound store -----------------------------------------

  /** How a committed write may change the state: nothing already learnt is forgotten. */
  predicate Advances(s: Store, t: Store) {
    && (s.owner.Claimed? ==>
          && t.owner.Claimed?
          && t.owner.user == s.owner.user
          && NotBelow(s.owner.floor, t.owner.floor)
          && (s.owner.source != LegacyFallback ==> t.owner.chat == s.owner.chat && t.owner.source == s.owner.source)
          && (t.owner.source == LegacyFallback ==> t.owner.chat == s.owner.chat))
    && NotBelow(s.guard.overflow, t.guard.overflow)
    && s.guard.revision <= t.guard.revision
    && NotBelow(HighWater(s), HighWater(t))
  }

  function TrustedGeneration(s: Store): Option<int>
    requires AtMostOne(s.trusted)
  {
    if s.trusted == map[] then None else s.trusted[SoleId(s.trusted)].established
  }

  function Join(a: Option<int>, b: Option<int>): Option<int> {
    if b.None? then a else Raise(a, b.value)
  }

  /** The highest generation that is or was trusted since the claim, or lies below the floor. */
  function HighWater(s: Store): Option<int> {
    if s.owner.Unclaimed? then None
    else if AtMostOne(s.trusted) then Join(s.owner.floor, TrustedGeneration(s))
    else s.owner.floor
  }

  lemma SingletonRow(trusted: map<ConnId, Trusted>, id: ConnId, row: Trusted)
    requires trusted == map[id := row]
    ensures AtMostOne(trusted) && trusted != map[] && SoleId(trusted) == id
  {
    assert id in trusted;
  }

  /** `t` newly trusts a connection that `s` did not. */
  predicate NewlyTrusted(s: Store, t: Store, id: ConnId) {
    id in t.trusted && id !in s.trusted
  }

  /** The write's effect on a trusted row that survives it. */
  predicate Narrowed(before: Trusted, after: Trusted) {
    && (after.enabled ==> before.enabled)
    && after.rights == Intersect(after.rights, before.rights)
  }

  /** What `install_trusted` establishes when the generation clears every floor. */
  lemma InstallSound(s: Store, a: Authoritative, revision: int)
    requires StoreSound(s) && WellFormed(a) && s.owner.Claimed? && s.owner.user == a.user
    requires s.trusted != map[] ==> AboveEveryFloor(s, a.id, a.established) && a.id !in s.trusted
    requires Above(a.established, OwnerFloor(s.owner)) || s.trusted == map[]
    ensures StoreSound(Install(s, a, revision))
    ensures Install(s, a, revision).trusted.Keys == {a.id}
    ensures Install(s, a, revision).trusted[a.id].established == Some(a.established)
    ensures Advances(s, Install(s, a, revision))
  {
    var t := Install(s, a, revision);
    assert t.trusted == map[a.id := t.trusted[a.id]];
    SingletonRow(t.trusted, a.id, t.trusted[a.id]);
  }

  lemma ReconcileSameSound(s: Store, a: Authoritative, expected: Option<int>)
    requires StoreSound(s) && WellFormed(a) && a.id in s.trusted && s.owner.Claimed? && s.owner.user == a.user
    ensures var (t, w) := ReconcileSame(s, a, expected);
            && StoreSound(t) && Advances(s, t) && t.trusted.Keys == {a.id}
            && t.owner == s.owner && t.guard == s.guard
            && s.trusted[a.id].revision <= t.trusted[a.id].revision
            && (w != Reconciled ==> Narrowed(s.trusted[a.id], t.trusted[a.id]) && t.candidates == s.candidates)
            && (w == Reconciled ==> expected == Some(s.trusted[a.id].revision))
  {
    var t := ReconcileSame(s, a, expected).0;
    assert SoleId(s.trusted) == a.id;
    assert t.trusted == map[a.id := t.trusted[a.id]];
    SingletonRow(t.trusted, a.id, t.trusted[a.id]);
  }

  lemma RetainAmbiguousSound(s: Store, a: Authoritative, now: int)
    requires StoreSound(s) && WellFormed(a) && s.owner.Claimed? && s.owner.user == a.user
    requires s.trusted != map[] && s.trusted[SoleId(s.trusted)].established == Some(a.established)
    ensures var (t, w) := RetainAmbiguous(s, a, now);
            StoreSound(t) && Advances(s, t) && w == Ambiguous && t.trusted == map[] && t.owner.Claimed?
  {
    var t := RetainAmbiguous(s, a, now).0;
    var id := SoleId(s.trusted);
    assert t.candidates.Keys == s.candidates.Keys + {id, a.id};
  }

  lemma ReconcileOtherSound(s: Store, a: Authoritative, now: int, expected: Option<int>, revision: int)
    requires StoreSound(s) && WellFormed(a) && s.owner.Claimed? && s.owner.user == a.user
    requires s.trusted != map[] && a.id !in s.trusted
    ensures var (t, w) := ReconcileOther(s, a, now, expected, revision);
            StoreSound(t) && Advances(s, t) && t.owner.Claimed? && w != StorageFailure
  {
    var row := s.trusted[SoleId(s.trusted)];
    if row.established == Some(a.established) {
      RetainAmbiguousSound(s, a, now);
    } else if AboveEveryFloor(s, a.id, a.established) {
      InstallSound(s, a, revision);
    }
  }

  /** One authoritative write keeps the store sound, whatever revisions it was given. */
  lemma ReconcileSound(s: Store, a: Authoritative, now: int, et: Option<int>, ec: Option<int>, eg: int)
    requires StoreSound(s)
    ensures var (t, w) := Reconcile(s, a, now, et, ec, eg);
            && StoreSound(t) && Advances(s, t)
            && (w == Installed || w == Reconciled || w == Replaced || w == Ambiguous ==> t.owner.Claimed?)
            && (WellFormed(a) ==> w != StorageFailure)
  {
    if WellFormed(a) && s.owner.Claimed? && s.owner.user == a.user {
      if s.trusted == map[] {
        if AboveEveryFloor(s, a.id, a.established) {
          InstallSound(s, a, if ec.Some? then ec.value + 1 else 0);
        }
      } else if a.id in s.trusted {
        ReconcileSameSound(s, a, et);
      } else {
        ReconcileOtherSound(s, a, now, et, if ec.Some? then ec.value + 1 else 0);
      }
    }
  }

  lemma RetireSound(s: Store, id: ConnId, expected: int)
    requires StoreSound(s)
    ensures var (t, w) := Retire(s, id, expected); StoreSound(t) && Advances(s, t) && w != StorageFailure
    ensures Retire(s, id, expected).1 == Reconciled ==> id !in Retire(s, id, expected).0.trusted
  {
    if id in s.trusted {
      assert SoleId(s.trusted) == id;
      assert s.trusted - {id} == map[];
    }
  }

  lemma AdvanceFloorSound(s: Store, generation: int)
    requires StoreSound(s) && AdvanceFloor(s.owner, generation).Some?
    ensures var t := s.(owner := AdvanceFloor(s.owner, generation).value); StoreSound(t) && Advances(s, t)
  {
  }

  lemma PromoteChatSound(s: Store, user: int, chat: int, source: ChatSource)
    requires StoreSound(s) && PromoteChat(s.owner, user, chat, source).Some?
    ensures var t := s.(owner := PromoteChat(s.owner, user, chat, source).value); StoreSound(t) && Advances(s, t)
  {
  }

  lemma PromoteClaimSound(s: Store, a: Authoritative, expectedCandidate: int, expectedGuard: int)
    requires StoreSound(s)
    ensures var (t, w) := PromoteClaimCandidate(s, a, expectedCandidate, expectedGuard); StoreSound(t) && Advances(s, t)
  {
    if PromoteClaimCandidate(s, a, expectedCandidate, expectedGuard).1 == Installed {
      InstallSound(s, a, expectedCandidate + 1);
    }
  }

  lemma ApplyFoundSound(s: Store, a: Authoritative, snap: Snapshot, now: int)
    requires StoreSound(s)
    ensures var r := ApplyFound(s, a, snap, now); r.Some? ==> StoreSound(r.value) && Advances(s, r.value)
  {
    if s.owner.Unclaimed? {
      ApplyUnclaimedSound(s, a, snap, now);
    } else {
      ApplyClaimedSound(s, a, snap, now);
    }
  }

  lemma PruneSound(s: Store, cutoff: int, limit: nat)
    requires StoreSound(s)
    ensures var t := Prune(s, cutoff, limit);
            && StoreSound(t) && Advances(s, t) && t.owner == s.owner && t.trusted == s.trusted && t.gate == s.gate
            && t.candidates.Keys <= s.candidates.Keys
            && forall id :: id in t.candidates ==> t.candidates[id] == s.candidates[id]
  {
  }

  lemma ApplyCandidateSound(s: Store, a: Authoritative, now: int, expected: Option<int>)
    requires StoreSound(s) && s.owner.Unclaimed?
    ensures var (t, w) := ApplyCandidate(s, a, now, expected);
            StoreSound(t) && Advances(s, t) && t.owner == s.owner && t.trusted == s.trusted && t.gate == s.gate
  {
  }

  /** Rewriting flags and revisions of the rows in place changes nothing the invariant speaks of. */
  lemma FlagsSound(s: Store, t: Store)
    requires StoreSound(s)
    requires t.owner == s.owner && t.candidates == s.candidates && t.guard == s.guard
    requires t.trusted.Keys == s.trusted.Keys
    requires forall id :: id in s.trusted ==>
               t.trusted[id].owner == s.trusted[id].owner && t.trusted[id].established == s.trusted[id].established
    ensures StoreSound(t) && Advances(s, t) && HighWater(t) == HighWater(s)
  {
    if s.trusted != map[] {
      var id := SoleId(s.trusted);
      assert id in t.trusted;
      assert SoleId(t.trusted) == id;
    } else {
      assert t.trusted == map[];
    }
  }

  // ----- preservation by every step -------------------------------------------------------

  lemma InitInv(s: Sys)
    requires Init(s)
    ensures Inv(s)
  {
    var now :| InitializeOwner(s.store.trusted, now) == Some(s.store.owner);
  }

  lemma SnapshotTaken(s: Store, id: ConnId)
    requires TrustedSound(s)
    ensures SnapshotSound(s, id, TakeSnapshot(s, id))
  {
  }

  lemma AdoptChatSound(s: Store, t: Store, a: Authoritative)
    requires StoreSound(t) && Advances(s, t) && s.owner.Claimed? && t.owner.Claimed?
    ensures var r := AdoptChat(t, a);
            r.Some? ==> StoreSound(r.value) && Advances(s, r.value) && r.value.gate == t.gate && r.value.owner.Claimed?
  {
    var r := AdoptChat(t, a);
    if r.Some? {
      assert r.value.trusted == t.trusted && r.value.candidates == t.candidates;
      assert HighWater(r.value) == HighWater(t);
    }
  }

  lemma SettleWriteSound(s: Store, next: Store, outcome: TrustedWrite, a: Authoritative, matching: bool)
    requires s.owner.Claimed? && CommitSound(s, next)
    ensures var r := SettleWrite(next, outcome, a, matching); r.Some? ==> CommitSound(s, r.value)
  {
    AdoptChatSound(s, next, a);
  }

  lemma WriteSound(s: Store, a: Authoritative, snap: Snapshot, now: int)
    requires StoreSound(s) && s.owner.Claimed?
    ensures CommitSound(s, Reconcile(s, a, now, snap.trusted, snap.candidate, snap.guard).0)
  {
    ReconcileSound(s, a, now, snap.trusted, snap.candidate, snap.guard);
    OutcomeKeepsGate(s, a, now, snap.trusted, snap.candidate, snap.guard);
  }

  lemma ApplyClaimedSound(s: Store, a: Authoritative, snap: Snapshot, now: int)
    requires StoreSound(s) && s.owner.Claimed?
    ensures var r := ApplyClaimed(s, a, snap, now); r.Some? ==> CommitSound(s, r.value)
  {
    FlagsSound(s, s);
    WriteSound(s, a, snap, now);
    var (next, outcome) := Reconcile(s, a, now, snap.trusted, snap.candidate, snap.guard);
    SettleWriteSound(s, next, outcome, a, snap.trustedId == Some(a.id));
  }

  lemma ApplyUnclaimedSound(s: Store, a: Authoritative, snap: Snapshot, now: int)
    requires StoreSound(s) && s.owner.Unclaimed?
    ensures var r := ApplyUnclaimed(s, a, snap, now);
            r.Some? ==> StoreSound(r.value) && Advances(s, r.value) && r.value.owner == s.owner
                        && r.value.trusted == s.trusted && r.value.gate == s.gate
  {
    ApplyCandidateSound(s, a, now, snap.candidate);
    PruneSound(ApplyCandidate(s, a, now, snap.candidate).0, now - CANDIDATE_RETENTION, CANDIDATE_LIMIT);
  }

  /** The gate is closed for good, and every trusted row is disabled and gated but otherwise as it was. */
  predicate Fenced(s: Store, t: Store) {
    && t.owner == s.owner && t.candidates == s.candidates && t.guard == s.guard
    && t.gate.state == AuthFailed
    && t.gate.revision == s.gate.revision + (if s.gate.state == AuthFailed then 0 else 1)
    && t.trusted.Keys == s.trusted.Keys
    && forall id :: id in s.trusted ==>
         var before, after := s.trusted[id], t.trusted[id];
         && !after.enabled && !after.confirmed
         && after.owner == before.owner && after.rights == before.rights && after.established == before.established
         && after.revision == before.revision + (if before.enabled || before.confirmed then 1 else 0)
  }

  lemma SetAuthFailedSound(s: Store)
    requires StoreSound(s)
    ensures StoreSound(SetAuthFailed(s)) && Advances(s, SetAuthFailed(s))
  {
    FlagsSound(s, SetAuthFailed(s));
  }

  /** A committed trigger also leaves the gate alone and binds or unbinds nobody. */
  predicate CommitSound(s: Store, t: Store) {
    StoreSound(t) && Advances(s, t) && t.gate == s.gate && t.owner.Claimed? == s.owner.Claimed?
  }

  lemma TriggerCommitSound(s: Sys, result: LookupResult, now: int)
    requires StoreSound(s.store) && s.work.TriggerLookup?
    ensures var r := TriggerCommit(s, result, now); r.Some? ==> CommitSound(s.store, r.value)
  {
    match result
    case Found(a) =>
      if s.store.owner.Unclaimed? {
        ApplyUnclaimedSound(s.store, a, s.work.snap, now);
      } else {
        ApplyClaimedSound(s.store, a, s.work.snap, now);
      }
    case NotFound => RetireSound(s.store, s.work.id, s.work.snap.trusted.GetOr(0));
    case _ =>
  }

  /** Owner data that any later handle may rely on. */
  lemma HandleFollows(handle: Owner, s: Store, t: Store)
    requires HandleSound(handle, s.owner) && Advances(s, t) && t.owner.Claimed? == s.owner.Claimed?
    ensures HandleSound(handle, t.owner)
  {
  }

  /** The owner stays claimed or unclaimed outside the claim transaction. */
  lemma OutcomeKeepsGate(s: Store, a: Authoritative, now: int, et: Option<int>, ec: Option<int>, eg: int)
    ensures Reconcile(s, a, now, et, ec, eg).0.gate == s.gate
    ensures s.owner.Unclaimed? ==> Reconcile(s, a, now, et, ec, eg).0.owner == s.owner
  {
  }

  lemma SettleTriggerInv(s: Sys, committed: Option<Store>)
    requires Inv(s) && s.work.TriggerLookup? && (committed.Some? ==> CommitSound(s.store, committed.value))
    ensures Inv(SettleTrigger(s, committed)) && Advances(s.store, SettleTrigger(s, committed).store)
  {
    if committed.Some? { HandleFollows(s.handle, s.store, committed.value); }
  }

  lemma FinishTriggerInv(s: Sys, result: LookupResult, now: int)
    requires Inv(s) && CanStep(s, FinishTrigger(result, now))
    ensures Inv(DoFinishTrigger(s, result, now)) && Advances(s.store, DoFinishTrigger(s, result, now).store)
  {
    if result.AuthenticationFailed? {
      SetAuthFailedSound(s.store);
    } else {
      TriggerCommitSound(s, result, now);
      SettleTriggerInv(s, TriggerCommit(s, result, now));
    }
  }

  lemma FinishStartupInv(s: Sys, result: LookupResult, now: int)
    requires Inv(s) && CanStep(s, FinishStartup(result, now))
    ensures Inv(DoFinishStartup(s, result, now)) && Advances(s.store, DoFinishStartup(s, result, now).store)
  {
    var snap := s.work.snap;
    match result
    case OtherError =>
    case AuthenticationFailed => SetAuthFailedSound(s.store);
    case NotFound =>
      RetireSound(s.store, s.work.id, snap.trusted.GetOr(0));
      HandleFollows(s.handle, s.store, Retire(s.store, s.work.id, snap.trusted.GetOr(0)).0);
    case Found(a) =>
      ReconcileSound(s.store, a, now, snap.trusted, snap.candidate, snap.guard);
      OutcomeKeepsGate(s.store, a, now, snap.trusted, snap.candidate, snap.guard);
      HandleFollows(s.handle, s.store, Reconcile(s.store, a, now, snap.trusted, snap.candidate, snap.guard).0);
  }

  /** The candidates the claim leaves behind lie at or below its floor. */
  lemma ClaimFloorDominates(date: int, seen: map<ConnId, Candidate>, current: map<ConnId, Candidate>, g: Guard,
      h: Guard)
    ensures date <= ClaimFloor(date, seen, current, g, h)
    ensures forall id :: id in current ==> current[id].established <= ClaimFloor(date, seen, current, g, h)
    ensures forall id :: id in seen ==> seen[id].established <= ClaimFloor(date, seen, current, g, h)
    ensures h.overflow.Some? ==> h.overflow.value <= ClaimFloor(date, seen, current, g, h)
  {
    var all := FloorCandidates(date, seen, current, g, h);
    forall id | id in current ensures current[id].established in all {
      assert current[id].established in GenerationSet(current);
    }
    forall id | id in seen ensures seen[id].established in all {
      assert seen[id].established in GenerationSet(seen);
    }
  }

  /** What it takes for the claim to hand trust to a candidate. */
  predicate PromotedByClaim(s: Store, t: Store, user: int, id: ConnId)
    requires id in t.trusted
  {
    && id in s.candidates
    && t.trusted[id].owner == user == s.candidates[id].user
    && t.trusted[id].established == Some(s.candidates[id].established)
    && t.trusted[id].confirmed && t.trusted[id].enabled
    && s.gate.state == Ready && s.guard.overflow.None?
    && t.candidates == map[]
  }

  lemma {:induction false} CommitClaimSound(s: Store, q: ClaimRequest, seen: ClaimSnapshot, result: LookupResult,
      now: int)
    requires StoreSound(s) && s.owner.Unclaimed? && 0 < q.user && 0 < q.chat && 0 < q.date
    ensures var r := CommitClaim(s, q, seen, result, now);
            && r.Some? && StoreSound(r.value) && Advances(s, r.value)
            && r.value.owner.Claimed? && r.value.owner.user == q.user
            && (r.value.gate == s.gate || r.value.gate.state == AuthFailed)
            && r.value.guard == Prune(s, now - CANDIDATE_RETENTION, CANDIDATE_LIMIT).guard
            && forall id :: id in r.value.trusted ==> PromotedByClaim(s, r.value, q.user, id)
  {
    var before := CandidatesOf(s.candidates, q.user);
    var floor := ClaimFloor(q.date, seen.candidates, before, seen.guard, s.guard);
    ClaimFloorDominates(q.date, seen.candidates, before, seen.guard, s.guard);
    var pruned := Prune(s, now - CANDIDATE_RETENTION, CANDIDATE_LIMIT);
    PruneSound(s, now - CANDIDATE_RETENTION, CANDIDATE_LIMIT);
    var current := CandidatesOf(pruned.candidates, q.user);
    var owner := ClaimOwner(s.owner, q.user, q.chat, floor, now).value;
    var claimed := pruned.(owner := owner);
    var gated := if result.AuthenticationFailed? then SetAuthFailed(claimed) else claimed;
    assert gated.trusted == map[];
    forall id | id in current ensures current[id].established <= floor && current[id].user == q.user {
      assert id in before && before[id] == current[id];
    }
    SettleSound(gated, seen, s.gate, current, result, q.user, floor);
    var settled := CommitClaim(s, q, seen, result, now).value;
    forall id | id in settled.trusted ensures PromotedByClaim(s, settled, q.user, id) {
      assert PromotedByClaim(gated.(gate := s.gate), settled, q.user, id);
    }
  }

  lemma SettleSound(s: Store, seen: ClaimSnapshot, gate: Gate, current: map<ConnId, Candidate>, result: LookupResult,
                    user: int, floor: int)
    requires OwnerSound(s.owner) && s.owner.Claimed? && s.owner.user == user && s.owner.floor == Some(floor)
    requires s.trusted == map[] && current == CandidatesOf(s.candidates, user)
    requires forall id :: id in s.candidates ==> 0 < s.candidates[id].established
    requires forall id :: id in current ==> current[id].established <= floor && current[id].user == user
    ensures var (t, promoted) := TryPromote(s, seen, gate, current, result);
            var u := SettleCandidates(t, promoted, user, current);
            && StoreSound(u) && u.owner == s.owner && u.guard == s.guard && u.gate == s.gate
            && (forall id :: id in u.trusted ==>
                  && PromotedByClaim(s.(gate := gate), u, user, id)
                  && id in current && current[id] == s.candidates[id])
  {
    var (t, promoted) := TryPromote(s, seen, gate, current, result);
    var u := SettleCandidates(t, promoted, user, current);
    if promoted {
      var a := result.answer;
      assert t == Install(s, a, current[a.id].revision + 1);
      assert t.trusted == map[a.id := t.trusted[a.id]];
      SingletonRow(t.trusted, a.id, t.trusted[a.id]);
    } else {
      assert t == s;
    }
  }

  lemma OwnerCommandInv(s: Sys, user: int, chat: int, privateChat: bool)
    requires Inv(s) && s.work.Idle?
    ensures Inv(DoOwnerCommand(s, user, chat, privateChat))
    ensures Advances(s.store, DoOwnerCommand(s, user, chat, privateChat).store)
  {
    var t := DoOwnerCommand(s, user, chat, privateChat);
    assert t.store.trusted == s.store.trusted && t.store.candidates == s.store.candidates;
    assert HighWater(t.store) == HighWater(s.store);
  }

  lemma RestartInv(s: Sys)
    requires Inv(s)
    ensures Inv(DoRestart(s)) && Advances(s.store, DoRestart(s).store)
  {
    FlagsSound(s.store, NormalizeStartup(s.store));
  }

  lemma DisableInv(s: Sys, id: ConnId)
    requires Inv(s)
    ensures Inv(s.(store := Disable(s.store, id))) && Advances(s.store, Disable(s.store, id))
  {
    FlagsSound(s.store, Disable(s.store, id));
  }

  /** Every step of every worker preserves the invariant and forgets nothing. */
  lemma StepInv(s: Sys, step: Step)
    requires Inv(s) && CanStep(s, step)
    ensures Inv(Next(s, step)) && Advances(s.store, Next(s, step).store)
  {
    match step
    case Record(u, id, _) => FlagsSound(s.store, GateMatching(s.store, id));
    case BeginTrigger(u) => SnapshotTaken(s.store, s.log[u].id);
    case FinishTrigger(r, now) => FinishTriggerInv(s, r, now);
    case BeginStartup => SnapshotTaken(s.store, s.startup.value);
    case FinishStartup(r, now) => FinishStartupInv(s, r, now);
    case BeginClaim(q, now) =>
    case FinishClaim(r, now) => CommitClaimSound(s.store, s.work.request, s.work.seen, r, now);
    case PublishReady => if DoPublishReady(s) != s { FlagsSound(s.store, DoPublishReady(s).store); }
    case OwnerCommand(user, chat, privateChat) => OwnerCommandInv(s, user, chat, privateChat);
    case OutboxDisable(id) => DisableInv(s, id);
    case Purge(_, _) =>
    case Restart => RestartInv(s);
  }

  lemma StepAt(states: seq<Sys>, steps: seq<Step>, i: nat)
    requires IsRun(states, steps) && i < |steps| && Inv(states[i])
    ensures Inv(states[i + 1]) && Advances(states[i].store, states[i + 1].store)
  {
    StepInv(states[i], steps[i]);
  }

  lemma {:induction false} RunInv(states: seq<Sys>, steps: seq<Step>, i: nat)
    requires IsRun(states, steps) && i < |states|
    ensures Inv(states[i])
  {
    if i == 0 {
      InitInv(states[0]);
    } else {
      RunInv(states, steps, i - 1);
      StepAt(states, steps, i - 1);
    }
  }
}
