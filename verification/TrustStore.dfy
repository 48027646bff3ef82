/**
 The trust tables as the program updates them: statement by statement, inside a
 transaction that is committed or restored.  Every method is proved to compute
 the state change that `Trust` and `TrustSystem` specify.
 */
module TrustStore {
  import opened Prelude
  import opened Ranking
  import opened Trust
  import opened TrustSystem
  import opened TrustInvariant

  class ConnectionStore {
    var owner: Owner
    var trusted: map<ConnId, Trusted>
    var candidates: map<ConnId, Candidate>
    var guard: Guard
    var gate: Gate

    ghost function View(): Store
      reads this
    {
      Store(owner, trusted, candidates, guard, gate)
    }

    /** The tables are as every run keeps them. */
    ghost predicate Valid()
      reads this
    {
      StoreSound(View())
    }

    constructor (s: Store)
      ensures View() == s
    {
      owner, trusted, candidates, guard, gate := s.owner, s.trusted, s.candidates, s.guard, s.gate;
    }

    /** Discards every write since `s` was read. */
    method Rollback(s: Store)
      modifies this
      ensures View() == s
    {
      owner, trusted, candidates, guard, gate := s.owner, s.trusted, s.candidates, s.guard, s.gate;
    }

    method Read() returns (s: Store)
      ensures s == View()
    {
      s := Store(owner, trusted, candidates, guard, gate);
    }

    // ----- guard, floor, Owner ---------------------------------------------------------

    method UpdateOverflowGuard(generation: int)
      modifies this`guard
      ensures guard == RaiseGuard(old(guard), generation)
    {
      var overflow := guard.overflow;
      if overflow.None? || overflow.value < generation {
        overflow := Some(generation);
      }
      guard := Guard(overflow, guard.revision + 1);
    }

    method AdvanceOverflowGuardIfActive(generation: int)
      modifies this`guard
      ensures guard == AdvanceGuardIfActive(old(guard), generation)
    {
      if guard.overflow.Some? {
        UpdateOverflowGuard(generation);
      }
    }

    method AdvanceOwnerFloor(generation: int) returns (ok: bool)
      modifies this`owner
      ensures ok == AdvanceFloor(old(owner), generation).Some?
      ensures owner == if ok then AdvanceFloor(old(owner), generation).value else old(owner)
      ensures old(Valid()) ==> Valid() && Advances(old(View()), View())
    {
      if StoreSound(View()) && AdvanceFloor(owner, generation).Some? { AdvanceFloorSound(View(), generation); }
      if generation <= 0 || owner.Unclaimed? {
        return false;
      }
      if owner.floor.None? || owner.floor.value < generation {
        owner := owner.(floor := Some(generation));
      }
      return true;
    }

    method PromoteOwnerChat(user: int, chat: int, source: ChatSource) returns (ok: bool)
      modifies this`owner
      ensures ok == PromoteChat(old(owner), user, chat, source).Some?
      ensures owner == if ok then PromoteChat(old(owner), user, chat, source).value else old(owner)
      ensures old(Valid()) ==> Valid() && Advances(old(View()), View())
    {
      if StoreSound(View()) && PromoteChat(owner, user, chat, source).Some? {
        PromoteChatSound(View(), user, chat, source);
      }
      if user <= 0 || chat <= 0 || (source != FromConnection && source != FromPrivateMessage) {
        return false;
      }
      if owner.Unclaimed? || owner.user != user {
        return false;
      }
      if owner.source == LegacyFallback {
        owner := owner.(chat := chat, source := source);
      }
      return true;
    }

    // ----- candidates --------------------------------------------------------------------

    method ApplyAuthoritativeCandidate(a: Authoritative, now: int, expected: Option<int>) returns (w: CandidateWrite)
      modifies this
      ensures (View(), w) == ApplyCandidate(old(View()), a, now, expected)
      ensures old(Valid()) && owner.Unclaimed? ==> Valid() && Advances(old(View()), View())
    {
      if StoreSound(View()) && owner.Unclaimed? { ApplyCandidateSound(View(), a, now, expected); }
      if !WellFormed(a) {
        return CandidateRefused;
      }
      if a.id !in candidates {
        if expected.Some? {
          AdvanceOverflowGuardIfActive(a.established);
          return CandidateRevisionConflict;
        }
        candidates := candidates[a.id := ObservedCandidate(a, 0, now)];
        AdvanceOverflowGuardIfActive(a.established);
        return CandidateInserted;
      }
      var known := candidates[a.id];
      if known.user != a.user {
        AdvanceOverflowGuardIfActive(a.established);
        candidates := candidates - {a.id};
        return CandidateUserConflict;
      }
      if known.established != a.established {
        AdvanceOverflowGuardIfActive(a.established);
        candidates := candidates - {a.id};
        return CandidateGenerationConflict;
      }
      if expected != Some(known.revision) {
        AdvanceOverflowGuardIfActive(a.established);
        return CandidateRevisionConflict;
      }
      candidates := candidates[a.id :=
        known.(chat := a.chat, rights := a.rights, enabled := a.enabled,
               revision := known.revision + 1, observed := now)];
      AdvanceOverflowGuardIfActive(a.established);
      return CandidateReconciled;
    }

    /** Expires old rows, then evicts the worst-ranked rows above the limit one by one. */
    method PruneCandidates(cutoff: int, maximumRows: int) returns (deleted: Option<nat>)
      modifies this
      ensures maximumRows < 0 ==> deleted.None? && View() == old(View())
      ensures 0 <= maximumRows ==>
                && View() == Prune(old(View()), cutoff, maximumRows)
                && deleted == Some(|old(candidates)| - |candidates|)
      ensures old(Valid()) ==> Valid() && Advances(old(View()), View())
    {
      if maximumRows < 0 {
        return None;
      }
      if StoreSound(View()) { PruneSound(View(), cutoff, maximumRows); }
      var count := PruneRows(cutoff, maximumRows);
      return Some(count);
    }

    method PruneRows(cutoff: int, limit: nat) returns (deleted: nat)
      modifies this
      ensures View() == Prune(old(View()), cutoff, limit)
      ensures deleted == |old(candidates)| - |candidates|
    {
      var total := |candidates|;
      FreshIsSmaller(candidates, cutoff);
      candidates := Fresh(candidates, cutoff);
      var plan := PlanEviction(candidates, limit);
      if plan.Some? {
        UpdateOverflowGuard(plan.value.0);
        SmallerMap(candidates - Members(plan.value.1), candidates);
        EvictAll(plan.value.1);
      }
      return total - |candidates|;
    }

    method EvictAll(evicted: seq<ConnId>)
      modifies this`candidates
      ensures candidates == old(candidates) - Members(evicted)
    {
      ghost var live := candidates;
      for i := 0 to |evicted|
        invariant candidates == live - Members(evicted[..i])
      {
        MembersSnoc(evicted, i);
        candidates := candidates - {evicted[i]};
      }
      assert evicted[..|evicted|] == evicted;
    }

    // ----- trusted rows ---------------------------------------------------------------------

    /** The greatest generation of four sources, the looked-up connection itself excluded. */
    method GenerationFloorExcluding(id: ConnId) returns (floor: Option<int>)
      ensures forall g :: Above(g, floor) <==> AboveEveryFloor(View(), id, g)
      ensures forall g :: Above(g, floor) <==>
                && (owner.Claimed? ==> Above(g, owner.floor)) && Above(g, guard.overflow)
                && (forall k :: k in trusted && k != id ==> Above(g, trusted[k].established))
                && forall k :: k in candidates && k != id ==> candidates[k].established < g
    {
      floor := MaxTrusted(OwnerFloor(owner), trusted, id);
      floor := MaxCandidate(floor, candidates, id);
      if guard.overflow.Some? {
        RaiseIsAbove(floor, guard.overflow.value);
        floor := Raise(floor, guard.overflow.value);
      }
    }

    method UpsertTrusted(id: ConnId, row: Trusted)
      modifies this`trusted
      ensures trusted == Upsert(old(trusted), id, row)
    {
      var stale := set k | k in trusted && k != id && trusted[k].owner == row.owner;
      trusted := trusted - stale;
      trusted := trusted[id := row];
    }

    method InstallTrusted(a: Authoritative, revision: int)
      modifies this`trusted, this`candidates
      ensures View() == Install(old(View()), a, revision)
      ensures a.id in trusted && a.id !in candidates
      ensures trusted[a.id].owner == a.user && trusted[a.id].rights == a.rights && trusted[a.id].enabled == a.enabled
      ensures trusted[a.id].established == Some(a.established) && trusted[a.id].revision == revision
      ensures trusted[a.id].confirmed
      ensures forall k :: k in trusted && k != a.id ==>
                k in old(trusted) && trusted[k] == old(trusted)[k] && trusted[k].owner != a.user
      ensures forall k :: k in candidates <==> k in old(candidates) && k != a.id
      ensures forall k :: k in candidates ==> candidates[k] == old(candidates)[k]
    {
      UpsertTrusted(a.id, Trusted(a.user, a.rights, a.enabled, Some(a.established), revision, true));
      candidates := candidates - {a.id};
    }

    method ApplySafetyIntersection(a: Authoritative)
      requires a.id in trusted
      modifies this`trusted
      ensures trusted == old(trusted)[a.id := SafetyIntersection(old(trusted)[a.id], a)]
    {
      var row := trusted[a.id];
      var enabled := row.enabled && a.enabled;
      var rights := Intersect(row.rights, a.rights);
      if enabled != row.enabled || rights != row.rights {
        trusted := trusted[a.id := row.(enabled := enabled, rights := rights, revision := row.revision + 1)];
      }
    }

    method ReconcileSameTrusted(a: Authoritative, expected: Option<int>) returns (w: TrustedWrite)
      requires a.id in trusted
      modifies this`trusted, this`candidates
      ensures (View(), w) == ReconcileSame(old(View()), a, expected)
    {
      var row := trusted[a.id];
      if expected != Some(row.revision) {
        ApplySafetyIntersection(a);
        return RevisionConflict;
      }
      if row.owner != a.user {
        trusted := trusted[a.id := row.(enabled := false, confirmed := false, revision := row.revision + 1)];
        return UserConflict;
      }
      if row.established.Some? && row.established.value != a.established {
        trusted := trusted[a.id := row.(enabled := false, confirmed := false, revision := row.revision + 1)];
        return GenerationConflict;
      }
      trusted := trusted[a.id := row.(owner := a.user, rights := a.rights, enabled := a.enabled,
                                      established := Some(a.established), revision := row.revision + 1,
                                      confirmed := true)];
      candidates := candidates - {a.id};
      return Reconciled;
    }

    method InsertOrBump(id: ConnId, c: Candidate)
      modifies this`candidates
      ensures candidates == old(candidates)[id := c.(revision := NextCandidateRevision(old(candidates), id))]
    {
      var revision := 0;
      if id in candidates {
        revision := candidates[id].revision + 1;
      }
      candidates := candidates[id := c.(revision := revision)];
    }

    method RetainAmbiguousGenerations(id: ConnId, a: Authoritative, now: int) returns (w: TrustedWrite)
      requires owner.Claimed? && trusted != map[] && AtMostOne(trusted) && id == SoleId(trusted)
      modifies this
      ensures (View(), w) == RetainAmbiguous(old(View()), a, now)
    {
      var saved := Read();
      var row := trusted[id];
      trusted := trusted - {id};
      InsertOrBump(id, Candidate(row.owner, Some(owner.chat), row.rights, row.enabled, a.established, 0, now));
      InsertOrBump(a.id, ObservedCandidate(a, 0, now));
      var advanced := AdvanceOwnerFloor(a.established);
      if !advanced {
        Rollback(saved);
        return StorageFailure;
      }
      AdvanceOverflowGuardIfActive(a.established);
      assert trusted == map[];
      return Ambiguous;
    }

    method ReconcileAuthoritativeTrusted(a: Authoritative, now: int, expectedTrusted: Option<int>,
                                         expectedCandidate: Option<int>, expectedGuard: int) returns (w: TrustedWrite)
      modifies this
      ensures (View(), w) == Reconcile(old(View()), a, now, expectedTrusted, expectedCandidate, expectedGuard)
      ensures old(Valid()) ==> Valid() && Advances(old(View()), View())
    {
      if StoreSound(View()) { ReconcileSound(View(), a, now, expectedTrusted, expectedCandidate, expectedGuard); }
      if !WellFormed(a) {
        return StorageFailure;
      }
      if guard.revision != expectedGuard {
        return RevisionConflict;
      }
      var retained := if a.id in candidates then Some(candidates[a.id].revision) else None;
      if retained != expectedCandidate {
        return RevisionConflict;
      }
      if owner.Unclaimed? || owner.user != a.user {
        return UserConflict;
      }
      if !AtMostOne(trusted) {
        return StorageFailure;
      }
      var revision := if expectedCandidate.Some? then expectedCandidate.value + 1 else 0;
      if trusted == map[] {
        if expectedTrusted.Some? {
          return RevisionConflict;
        }
        var floor := GenerationFloorExcluding(a.id);
        if !Above(a.established, floor) {
          return GenerationConflict;
        }
        InstallTrusted(a, revision);
        return Installed;
      }
      var id := SoleId(trusted);
      if id == a.id {
        w := ReconcileSameTrusted(a, expectedTrusted);
        return;
      }
      w := ReconcileDifferent(id, a, now, expectedTrusted, revision);
    }

    method ReconcileDifferent(id: ConnId, a: Authoritative, now: int, expected: Option<int>, revision: int)
      returns (w: TrustedWrite)
      requires owner.Claimed? && trusted != map[] && AtMostOne(trusted) && id == SoleId(trusted)
      modifies this
      ensures (View(), w) == ReconcileOther(old(View()), a, now, expected, revision)
    {
      var row := trusted[id];
      if expected != Some(row.revision) {
        return RevisionConflict;
      }
      if row.owner != a.user {
        return UserConflict;
      }
      if row.established.None? {
        return GenerationConflict;
      }
      if a.established == row.established.value {
        w := RetainAmbiguousGenerations(id, a, now);
        return;
      }
      var floor := GenerationFloorExcluding(a.id);
      if a.established < row.established.value || !Above(a.established, floor) {
        return GenerationConflict;
      }
      InstallTrusted(a, revision);
      return Replaced;
    }

    method RetireNotFound(id: ConnId, expected: int) returns (w: TrustedWrite)
      modifies this
      ensures (View(), w) == Retire(old(View()), id, expected)
      ensures old(Valid()) ==> Valid() && Advances(old(View()), View())
    {
      if StoreSound(View()) { RetireSound(View(), id, expected); }
      if id !in trusted {
        candidates := candidates - {id};
        return Reconciled;
      }
      var row := trusted[id];
      if row.revision != expected {
        return RevisionConflict;
      }
      if owner.Unclaimed? || owner.user != row.owner {
        return UserConflict;
      }
      var floor := if row.established.Some? then row.established.value else Max(owner.boundAt, 1);
      if owner.floor.Some? && floor < owner.floor.value {
        floor := owner.floor.value;
      }
      var advanced := AdvanceOwnerFloor(floor);
      if !advanced {
        return StorageFailure;
      }
      trusted := trusted - {id};
      return Reconciled;
    }

    method PromoteClaim(a: Authoritative, expectedCandidate: int, expectedGuard: int) returns (w: TrustedWrite)
      modifies this
      ensures (View(), w) == PromoteClaimCandidate(old(View()), a, expectedCandidate, expectedGuard)
      ensures old(Valid()) ==> Valid() && Advances(old(View()), View())
    {
      if StoreSound(View()) { PromoteClaimSound(View(), a, expectedCandidate, expectedGuard); }
      if !WellFormed(a) {
        return StorageFailure;
      }
      if guard.revision != expectedGuard || guard.overflow.Some? {
        return RevisionConflict;
      }
      if owner.Unclaimed? || owner.user != a.user {
        return UserConflict;
      }
      if !AtMostOne(trusted) {
        return StorageFailure;
      }
      if trusted != map[] || a.id !in candidates {
        return RevisionConflict;
      }
      var candidate := candidates[a.id];
      if candidate.revision != expectedCandidate {
        return RevisionConflict;
      }
      if candidate.user != a.user {
        return UserConflict;
      }
      if candidate.established != a.established {
        return GenerationConflict;
      }
      InstallTrusted(a, expectedCandidate + 1);
      return Installed;
    }

    // ----- row and global gates -----------------------------------------------------------------

    method DisableConnection(id: ConnId) returns (ok: bool)
      modifies this`trusted
      ensures View() == Disable(old(View()), id)
      ensures ok == (id in trusted)
      ensures old(Valid()) ==> Valid() && Advances(old(View()), View())
    {
      if StoreSound(View()) { FlagsSound(View(), Disable(View(), id)); }
      if id in trusted {
        var row := trusted[id];
        trusted := trusted[id := row.(enabled := false, revision := row.revision + 1)];
      }
      return id in trusted;
    }

    method GateMatchingTrusted(id: ConnId)
      modifies this`trusted
      ensures View() == GateMatching(old(View()), id)
      ensures old(Valid()) ==> Valid() && Advances(old(View()), View())
    {
      if StoreSound(View()) { FlagsSound(View(), GateMatching(View(), id)); }
      if id in trusted && trusted[id].confirmed {
        trusted := trusted[id := trusted[id].(confirmed := false, revision := trusted[id].revision + 1)];
      }
    }

    method NormalizeStartupReconciliation()
      modifies this
      ensures View() == NormalizeStartup(old(View()))
      ensures old(Valid()) ==> Valid() && Advances(old(View()), View())
    {
      if StoreSound(View()) { FlagsSound(View(), NormalizeStartup(View())); }
      if gate.state != Pending {
        gate := Gate(Pending, gate.revision + 1);
      }
      trusted := map id | id in trusted ::
        if trusted[id].confirmed then trusted[id].(confirmed := false, revision := trusted[id].revision + 1)
        else trusted[id];
    }

    method SetTelegramAuthFailed()
      modifies this
      ensures View() == SetAuthFailed(old(View())) && Fenced(old(View()), View())
      ensures old(Valid()) ==> Valid() && Advances(old(View()), View())
    {
      if StoreSound(View()) { SetAuthFailedSound(View()); }
      if gate.state != AuthFailed {
        gate := Gate(AuthFailed, gate.revision + 1);
      }
      trusted := map id | id in trusted ::
        if trusted[id].enabled || trusted[id].confirmed
        then trusted[id].(enabled := false, confirmed := false, revision := trusted[id].revision + 1)
        else trusted[id];
    }

    method TransitionTelegramReady(expected: int) returns (ok: bool)
      modifies this`gate
      ensures ok == TransitionReady(old(View()), expected).Some?
      ensures View() == if ok then TransitionReady(old(View()), expected).value else old(View())
      ensures old(Valid()) ==> Valid() && Advances(old(View()), View())
    {
      if StoreSound(View()) { FlagsSound(View(), View().(gate := Gate(Ready, gate.revision + 1))); }
      if gate.state != Pending || gate.revision != expected || !AtMostOne(trusted) {
        return false;
      }
      if exists id :: id in trusted && !trusted[id].confirmed {
        return false;
      }
      gate := Gate(Ready, gate.revision + 1);
      return true;
    }

    // ----- transactions of the processing worker ----------------------------------------------------

    /** Applies a found connection; on a retry every write of the transaction is undone. */
    method ApplyFoundConnection(a: Authoritative, snap: Snapshot, now: int) returns (committed: bool)
      modifies this
      ensures committed == ApplyFound(old(View()), a, snap, now).Some?
      ensures View() == if committed then ApplyFound(old(View()), a, snap, now).value else old(View())
      ensures old(Valid()) ==> Valid() && Advances(old(View()), View())
    {
      if StoreSound(View()) { ApplyFoundSound(View(), a, snap, now); }
      var saved := Read();
      if owner != snap.owner {
        return false;
      }
      if owner.Unclaimed? {
        var w := ApplyAuthoritativeCandidate(a, now, snap.candidate);
        if w == CandidateRevisionConflict || w == CandidateRefused {
          Rollback(saved);
          return false;
        }
        var _ := PruneCandidates(now - CANDIDATE_RETENTION, CANDIDATE_LIMIT);
        return true;
      }
      committed := ApplyClaimedConnection(a, snap, now);
      if !committed {
        Rollback(saved);
      }
    }

    method ApplyClaimedConnection(a: Authoritative, snap: Snapshot, now: int) returns (committed: bool)
      requires owner.Claimed?
      modifies this
      ensures committed == ApplyClaimed(old(View()), a, snap, now).Some?
      ensures committed ==> View() == ApplyClaimed(old(View()), a, snap, now).value
    {
      var matching := snap.trustedId == Some(a.id);
      if a.user != owner.user {
        return !matching;
      }
      var w := ReconcileAuthoritativeTrusted(a, now, snap.trusted, snap.candidate, snap.guard);
      if w == RevisionConflict || w == StorageFailure {
        return false;
      }
      if w == UserConflict || w == GenerationConflict {
        return !matching;
      }
      if owner.Unclaimed? {
        return false;
      }
      if owner.source == LegacyFallback && a.chat.Some? {
        committed := PromoteOwnerChat(owner.user, a.chat.value, FromConnection);
        return;
      }
      return true;
    }

    method ApplyMissingConnection(id: ConnId, snap: Snapshot) returns (committed: bool)
      modifies this
      ensures committed == ApplyNotFound(old(View()), id, snap).Some?
      ensures View() == if committed then ApplyNotFound(old(View()), id, snap).value else old(View())
      ensures old(Valid()) ==> Valid() && Advances(old(View()), View())
    {
      if StoreSound(View()) { RetireSound(View(), id, snap.trusted.GetOr(0)); }
      if owner != snap.owner {
        return false;
      }
      var saved := Read();
      var w := RetireNotFound(id, if snap.trusted.Some? then snap.trusted.value else 0);
      if w != Reconciled {
        Rollback(saved);
      }
      return w == Reconciled;
    }

    /** The claim transaction: floor, prune, bind, promote, settle the candidates. */
    method CommitOwnerClaim(request: ClaimRequest, seen: ClaimSnapshot, result: LookupResult, now: int)
      returns (committed: bool)
      modifies this
      ensures committed == CommitClaim(old(View()), request, seen, result, now).Some?
      ensures View() == if committed then CommitClaim(old(View()), request, seen, result, now).value else old(View())
      ensures old(Valid()) && 0 < request.date ==> Valid() && Advances(old(View()), View())
    {
      if StoreSound(View()) && owner.Unclaimed? && 0 < request.user && 0 < request.chat && 0 < request.date {
        CommitClaimSound(View(), request, seen, result, now);
      }
      var floor := ClaimFloorOf(request.date, seen, CandidatesOf(candidates, request.user));
      if request.user <= 0 || request.chat <= 0 || floor <= 0 || owner.Claimed? {
        return false;
      }
      var globalGate := gate;
      var _ := PruneCandidates(now - CANDIDATE_RETENTION, CANDIDATE_LIMIT);
      BindOwner(Claimed(request.user, request.chat, FromClaim, Some(floor), now), seen, globalGate, result);
      return true;
    }

    method BindOwner(bound: Owner, seen: ClaimSnapshot, globalGate: Gate, result: LookupResult)
      requires bound.Claimed?
      modifies this
      ensures View() == BindAndSettle(old(View()), bound, seen, globalGate, result)
    {
      var current := CandidatesOf(candidates, bound.user);
      owner := bound;
      if result.AuthenticationFailed? {
        SetTelegramAuthFailed();
      }
      var promoted := TryPromoteClaim(seen, globalGate, current, result);
      if !promoted && guard.overflow.None? && 2 <= |current| {
        candidates := CandidatesOf(candidates, bound.user);
      } else {
        candidates := map[];
      }
    }

    /** The maximum of the message date, the candidates and both guard readings. */
    method ClaimFloorOf(date: int, seen: ClaimSnapshot, current: map<ConnId, Candidate>) returns (floor: int)
      ensures floor == ClaimFloor(date, seen.candidates, current, seen.guard, guard)
    {
      floor := date;
      floor := MaxWith(floor, seen.candidates);
      floor := MaxWith(floor, current);
      if seen.guard.overflow.Some? {
        floor := Max(floor, seen.guard.overflow.value);
      }
      if guard.overflow.Some? {
        floor := Max(floor, guard.overflow.value);
      }
    }

    method TryPromoteClaim(seen: ClaimSnapshot, globalGate: Gate, current: map<ConnId, Candidate>, result: LookupResult)
      returns (promoted: bool)
      modifies this
      ensures (View(), promoted) == TryPromote(old(View()), seen, globalGate, current, result)
    {
      if seen.gate.state != Ready || globalGate.state != Ready || seen.gate.revision != globalGate.revision
         || seen.guard != guard || guard.overflow.Some?
         || |seen.candidates| != 1 || |current| != 1 || !result.Found?
      {
        return false;
      }
      var a := result.answer;
      if a.id !in current || a.id !in seen.candidates
         || seen.candidates[a.id].revision != current[a.id].revision
         || !a.enabled || a.user != current[a.id].user || a.established != current[a.id].established
      {
        return false;
      }
      var saved := Read();
      var w := PromoteClaim(a, current[a.id].revision, guard.revision);
      if w != Installed {
        Rollback(saved);
      }
      return w == Installed;
    }
  }

  predicate TrustedBelow(trusted: map<ConnId, Trusted>, ids: set<ConnId>, g: int) {
    forall k :: k in ids && k in trusted ==> Above(g, trusted[k].established)
  }

  predicate CandidatesBelow(candidates: map<ConnId, Candidate>, ids: set<ConnId>, g: int) {
    forall k :: k in ids && k in candidates ==> candidates[k].established < g
  }

  lemma TrustedBelowGrows(trusted: map<ConnId, Trusted>, ids: set<ConnId>, k: ConnId)
    requires k in trusted
    ensures forall g :: TrustedBelow(trusted, ids + {k}, g) <==>
            TrustedBelow(trusted, ids, g) && Above(g, trusted[k].established)
  {
    forall g
      ensures TrustedBelow(trusted, ids + {k}, g) <==> TrustedBelow(trusted, ids, g) && Above(g, trusted[k].established)
    {
      assert k in ids + {k};
    }
  }

  lemma CandidatesBelowGrows(candidates: map<ConnId, Candidate>, ids: set<ConnId>, k: ConnId)
    requires k in candidates
    ensures forall g :: CandidatesBelow(candidates, ids + {k}, g) <==>
            CandidatesBelow(candidates, ids, g) && candidates[k].established < g
  {
    forall g
      ensures CandidatesBelow(candidates, ids + {k}, g) <==>
              CandidatesBelow(candidates, ids, g) && candidates[k].established < g
    {
      assert k in ids + {k};
    }
  }

  lemma RaiseIsAbove(o: Option<int>, v: int)
    ensures forall g :: Above(g, Raise(o, v)) <==> Above(g, o) && v < g
  {
  }

  /** Raises the floor to the newest trusted row other than the excluded one. */
  method MaxTrusted(start: Option<int>, trusted: map<ConnId, Trusted>, excluded: ConnId) returns (floor: Option<int>)
    ensures forall g :: Above(g, floor) <==> Above(g, start) && TrustedBelow(trusted, trusted.Keys - {excluded}, g)
  {
    floor := start;
    var keys := trusted.Keys - {excluded};
    ghost var done: set<ConnId> := {};
    while keys != {}
      invariant done !! keys && done + keys == trusted.Keys - {excluded}
      invariant forall g :: Above(g, floor) <==> Above(g, start) && TrustedBelow(trusted, done, g)
      decreases |keys|
    {
      var k :| k in keys;
      TrustedBelowGrows(trusted, done, k);
      if trusted[k].established.Some? {
        RaiseIsAbove(floor, trusted[k].established.value);
        floor := Raise(floor, trusted[k].established.value);
      }
      keys, done := keys - {k}, done + {k};
    }
    assert done == trusted.Keys - {excluded};
  }

  method MaxCandidate(start: Option<int>, candidates: map<ConnId, Candidate>, excluded: ConnId)
      returns (floor: Option<int>)
    ensures forall g :: Above(g, floor) <==>
            Above(g, start) && CandidatesBelow(candidates, candidates.Keys - {excluded}, g)
  {
    floor := start;
    var keys := candidates.Keys - {excluded};
    ghost var done: set<ConnId> := {};
    while keys != {}
      invariant done !! keys && done + keys == candidates.Keys - {excluded}
      invariant forall g :: Above(g, floor) <==> Above(g, start) && CandidatesBelow(candidates, done, g)
      decreases |keys|
    {
      var k :| k in keys;
      CandidatesBelowGrows(candidates, done, k);
      RaiseIsAbove(floor, candidates[k].established);
      floor := Raise(floor, candidates[k].established);
      keys, done := keys - {k}, done + {k};
    }
    assert done == candidates.Keys - {excluded};
  }

  /** `fold(start, max)` over one table. */
  method MaxWith(start: int, rows: map<ConnId, Candidate>) returns (m: int)
    ensures start <= m
    ensures forall k :: k in rows ==> rows[k].established <= m
    ensures m == start || m in GenerationSet(rows)
  {
    m := start;
    var keys := rows.Keys;
    while keys != {}
      invariant keys <= rows.Keys && start <= m
      invariant forall k :: k in rows && k !in keys ==> rows[k].established <= m
      invariant m == start || m in GenerationSet(rows)
      decreases |keys|
    {
      var k :| k in keys;
      assert rows[k].established in GenerationSet(rows);
      m := Max(m, rows[k].established);
      keys := keys - {k};
    }
  }

  /** The guard value and the rows to delete, worst-ranked last, when the table exceeds the limit. */
  method PlanEviction(rows: map<ConnId, Candidate>, limit: nat) returns (plan: Option<(int, seq<ConnId>)>)
    ensures plan.None? <==> |rows| <= limit
    ensures plan.Some? ==>
              && GenerationSet(rows) != {}
              && plan.value.0 == Maximum(GenerationSet(rows))
              && rows - Members(plan.value.1) == Restrict(rows, Top(Generations(rows), rows.Keys, limit))
  {
    var retained := RankedRows(Generations(rows));
    GenerationsCount(rows);
    if |retained| <= limit {
      return None;
    }
    OverflowIsMaximum(rows, retained);
    EvictionKeepsTop(rows, retained, limit);
    return Some((rows[retained[0]].established, retained[limit..]));
  }

  lemma GenerationsCount(rows: map<ConnId, Candidate>)
    ensures |Generations(rows)| == |rows|
  {
    assert |Generations(rows).Keys| == |rows.Keys|;
  }

  lemma EvictionKeepsTop(rows: map<ConnId, Candidate>, retained: seq<ConnId>, limit: nat)
    requires limit < |retained| && IsRanking(Generations(rows), retained)
    ensures rows - Members(retained[limit..]) == Restrict(rows, Top(Generations(rows), rows.Keys, limit))
  {
    var gen := Generations(rows);
    RankedAreDistinct(gen, retained);
    PrefixIsTop(gen, retained, limit);
    TailComplement(retained, limit, rows.Keys);
  }

  // ----- ranked tables ---------------------------------------------------------------------------

  ghost predicate Descending(gen: map<ConnId, int>, rows: seq<ConnId>) {
    forall i, j :: 0 <= i < j < |rows| ==> rows[i] in gen && rows[j] in gen && Outranks(gen, rows[i], rows[j])
  }

  ghost predicate IsRanking(gen: map<ConnId, int>, rows: seq<ConnId>) {
    && (forall id :: id in rows <==> id in gen)
    && |rows| == |gen|
    && Descending(gen, rows)
  }

  /** Everything already listed outranks everything still to be listed. */
  ghost predicate Precedes(gen: map<ConnId, int>, rows: seq<ConnId>, rest: set<ConnId>) {
    forall a, k :: a in rows && k in rest ==> a in gen && k in gen && Outranks(gen, a, k)
  }

  lemma ListNext(gen: map<ConnId, int>, rows: seq<ConnId>, rest: set<ConnId>, best: ConnId)
    requires Descending(gen, rows) && Precedes(gen, rows, rest) && best in rest && rest <= gen.Keys
    requires forall k :: k in rest && k != best ==> Outranks(gen, best, k)
    ensures Descending(gen, rows + [best]) && Precedes(gen, rows + [best], rest - {best})
  {
  }

  /** All rows, newest first, equal generations by descending ID. */
  method RankedRows(gen: map<ConnId, int>) returns (rows: seq<ConnId>)
    ensures IsRanking(gen, rows)
  {
    rows := [];
    var rest := gen.Keys;
    while rest != {}
      invariant rest <= gen.Keys
      invariant forall id :: id in rows <==> id in gen && id !in rest
      invariant |rows| + |rest| == |gen.Keys|
      invariant Descending(gen, rows) && Precedes(gen, rows, rest)
      decreases |rest|
    {
      var best := BestOf(gen, rest);
      ListNext(gen, rows, rest, best);
      rows := rows + [best];
      rest := rest - {best};
    }
  }

  method BestOf(gen: map<ConnId, int>, rows: set<ConnId>) returns (best: ConnId)
    requires rows != {} && rows <= gen.Keys
    ensures best in rows
    ensures forall k :: k in rows && k != best ==> Outranks(gen, best, k)
  {
    best :| best in rows;
    var rest := rows - {best};
    while rest != {}
      invariant rest <= rows && best in rows && best !in rest
      invariant forall k :: k in rows && k !in rest && k != best ==> Outranks(gen, best, k)
      decreases |rest|
    {
      var k :| k in rest;
      ghost var previous := best;
      OutranksTotal(gen, k, best);
      if gen[best] < gen[k] || (gen[best] == gen[k] && LexLess(best, k)) {
        best := k;
        forall e | e in rows && e !in rest && e != previous ensures Outranks(gen, best, e) {
          OutranksTransitive(gen, best, previous, e);
        }
      }
      rest := rest - {k};
    }
  }

  lemma SmallerMap<K, V>(a: map<K, V>, b: map<K, V>)
    requires a.Keys <= b.Keys
    ensures |a| <= |b|
  {
    assert |b.Keys - a.Keys| == |b.Keys| - |a.Keys|;
  }

  lemma FreshIsSmaller(candidates: map<ConnId, Candidate>, cutoff: int)
    ensures |Fresh(candidates, cutoff)| <= |candidates|
  {
    SmallerMap(Fresh(candidates, cutoff), candidates);
  }

  lemma OverflowIsMaximum(candidates: map<ConnId, Candidate>, rows: seq<ConnId>)
    requires rows != [] && IsRanking(Generations(candidates), rows)
    ensures GenerationSet(candidates) != {} && rows[0] in candidates
    ensures candidates[rows[0]].established == Maximum(GenerationSet(candidates))
  {
    assert rows[0] in rows;
    assert candidates[rows[0]].established in GenerationSet(candidates);
    forall id | id in candidates ensures candidates[id].established <= candidates[rows[0]].established {
      assert id in rows;
      var i :| 0 <= i < |rows| && rows[i] == id;
      if 0 < i { assert Outranks(Generations(candidates), rows[0], rows[i]); }
    }
  }

  lemma RankedAreDistinct(gen: map<ConnId, int>, rows: seq<ConnId>)
    requires Descending(gen, rows)
    ensures forall i, j :: 0 <= i < j < |rows| ==> rows[i] != rows[j]
  {
    forall i, j | 0 <= i < j < |rows| ensures rows[i] != rows[j] {
      OutranksTotal(gen, rows[i], rows[j]);
      LexTotal(rows[i], rows[i]);
    }
  }

  ghost function Members(rows: seq<ConnId>): set<ConnId> {
    set id | id in rows
  }

  lemma MembersSnoc(rows: seq<ConnId>, i: nat)
    requires i < |rows|
    ensures Members(rows[..i + 1]) == Members(rows[..i]) + {rows[i]}
  {
    assert rows[..i + 1] == rows[..i] + [rows[i]];
  }

  lemma TailComplement(rows: seq<ConnId>, limit: nat, all: set<ConnId>)
    requires limit <= |rows| && all == Members(rows)
    requires forall i, j :: 0 <= i < j < |rows| ==> rows[i] != rows[j]
    ensures all - Members(rows[limit..]) == set k | 0 <= k < limit :: rows[k]
  {
    forall id | id in all ensures id in Members(rows[limit..]) <==> !exists k :: 0 <= k < limit && rows[k] == id {
      var j :| 0 <= j < |rows| && rows[j] == id;
      if limit <= j { assert rows[limit..][j - limit] == id; }
    }
    forall k | 0 <= k < limit ensures rows[k] in all {
      assert rows[k] in rows;
    }
  }

  lemma {:induction false} PrefixSize(rows: seq<ConnId>, n: nat)
    requires n <= |rows| && forall i, j :: 0 <= i < j < |rows| ==> rows[i] != rows[j]
    ensures |set k | 0 <= k < n :: rows[k]| == n
  {
    if n > 0 {
      PrefixSize(rows, n - 1);
      assert (set k | 0 <= k < n :: rows[k]) == (set k | 0 <= k < n - 1 :: rows[k]) + {rows[n - 1]};
    }
  }

  /** The first rows of the ranked list are the retained set. */
  lemma PrefixIsTop(gen: map<ConnId, int>, rows: seq<ConnId>, limit: nat)
    requires limit < |rows| && IsRanking(gen, rows)
    ensures (set k | 0 <= k < limit :: rows[k]) == Top(gen, gen.Keys, limit)
  {
    var prefix := set k | 0 <= k < limit :: rows[k];
    RankedAreDistinct(gen, rows);
    PrefixSize(rows, limit);
    forall k, e | k in prefix && e in gen && e !in prefix ensures Outranks(gen, k, e) {
      assert e in rows;
      var i :| 0 <= i < limit && rows[i] == k;
      var j :| 0 <= j < |rows| && rows[j] == e;
      assert limit <= j;
    }
    forall k | k in prefix ensures k in gen {
      var i :| 0 <= i < limit && rows[i] == k;
      assert rows[i] in rows;
    }
    assert IsTop(gen, prefix, limit);
    TopIsTop(gen, gen.Keys, limit);
    assert IsTop(gen, Top(gen, gen.Keys, limit), limit);
    TopUnique(gen, prefix, Top(gen, gen.Keys, limit), limit);
  }
}
