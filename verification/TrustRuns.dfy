/** What holds over whole runs of the trust protocol. */
module TrustRuns {
  import opened Prelude
  import opened Ranking
  import opened Trust
  import opened TrustSystem
  import opened TrustInvariant

  // ----- nothing learnt is forgotten ---------------------------------------------------

  lemma AdvancesTransitive(a: Store, b: Store, c: Store)
    requires Advances(a, b) && Advances(b, c)
    ensures Advances(a, c)
  {
  }

  lemma {:induction false} RunAdvances(states: seq<Sys>, steps: seq<Step>, i: nat, j: nat)
    requires IsRun(states, steps) && i <= j < |states|
    ensures Advances(states[i].store, states[j].store)
    decreases j
  {
    if i < j {
      RunAdvances(states, steps, i, j - 1);
      RunInv(states, steps, j - 1);
      StepAt(states, steps, j - 1);
      AdvancesTransitive(states[i].store, states[j - 1].store, states[j].store);
    }
  }

  /**
   The contradictory states that readiness guards against never occur: at most
   one trusted row, none before the claim, always the Owner's, never also a
   candidate; and every candidate kept after the claim is the Owner's and lies
   at or below the Owner floor.
   */
  lemma TrustIsConsistent(states: seq<Sys>, steps: seq<Step>, i: nat)
    requires IsRun(states, steps) && i < |states|
    ensures var s := states[i].store;
            && (forall a, b :: a in s.trusted && b in s.trusted ==> a == b)
            && (s.owner.Unclaimed? ==> s.trusted == map[])
            && (forall id :: id in s.trusted ==>
               s.owner.Claimed? && s.trusted[id].owner == s.owner.user && id !in s.candidates)
            && (s.owner.Claimed? ==> forall id :: id in s.candidates ==>
                  && s.candidates[id].user == s.owner.user
                  && s.owner.floor.Some?
                  && s.candidates[id].established <= s.owner.floor.value)
  {
    RunInv(states, steps, i);
  }

  // ----- generations of trusted connections only grow ---------------------------------------

  /** The row's generation exceeds every generation the store remembers. */
  predicate Clears(s: Store, row: Trusted) {
    && row.established.Some?
    && Above(row.established.value, HighWater(s))
    && Above(row.established.value, s.guard.overflow)
    && forall k :: k in s.candidates ==> s.candidates[k].established < row.established.value
  }

  lemma TrustedByWrite(s: Store, a: Authoritative, snap: Snapshot, now: int, id: ConnId)
    requires StoreSound(s) && s.owner.Claimed? && WellFormed(a)
    ensures var t := Reconcile(s, a, now, snap.trusted, snap.candidate, snap.guard).0;
            NewlyTrusted(s, t, id) ==> Clears(s, t.trusted[id])
  {
    var t := Reconcile(s, a, now, snap.trusted, snap.candidate, snap.guard).0;
    if NewlyTrusted(s, t, id) && s.trusted != map[] {
      assert SoleId(s.trusted) in s.trusted;
    }
  }

  lemma TrustedByTrigger(s: Sys, r: LookupResult, now: int, id: ConnId)
    requires Inv(s) && CanStep(s, FinishTrigger(r, now)) && s.store.owner.Claimed?
    ensures var t := TriggerCommit(s, r, now);
            t.Some? && NewlyTrusted(s.store, t.value, id) ==> Clears(s.store, t.value.trusted[id])
  {
    if r.Found? { TrustedByApply(s.store, r.answer, s.work.snap, now, id); }
  }

  lemma TrustedByApply(s: Store, a: Authoritative, snap: Snapshot, now: int, id: ConnId)
    requires StoreSound(s) && s.owner.Claimed? && WellFormed(a)
    ensures var t := ApplyClaimed(s, a, snap, now);
            t.Some? && NewlyTrusted(s, t.value, id) ==> Clears(s, t.value.trusted[id])
  {
    TrustedByWrite(s, a, snap, now, id);
  }

  lemma SettledTrust(s: Sys, committed: Option<Store>, id: ConnId)
    requires s.work.TriggerLookup? && NewlyTrusted(s.store, SettleTrigger(s, committed).store, id)
    ensures committed.Some? && SettleTrigger(s, committed).store == committed.value
  {
  }

  /** A connection trusted by a claimed installation clears every generation the store remembers. */
  lemma NewTrustClearsFloors(s: Sys, step: Step, id: ConnId)
    requires Inv(s) && CanStep(s, step) && s.store.owner.Claimed?
    requires NewlyTrusted(s.store, Next(s, step).store, id)
    ensures step.FinishTrigger? || step.FinishStartup?
    ensures Clears(s.store, Next(s, step).store.trusted[id])
  {
    if step.FinishTrigger? {
      TrustedByTrigger(s, step.result, step.now, id);
      if !step.result.AuthenticationFailed? {
        SettledTrust(s, TriggerCommit(s, step.result, step.now), id);
      }
    } else if step.FinishStartup? {
      if step.result.Found? { TrustedByWrite(s.store, step.result.answer, s.work.snap, step.now, id); }
    }
  }

  /**
   Over every run, a connection that becomes trusted after the claim carries a
   generation strictly greater than every generation ever trusted before, and
   than every generation ever kept as a candidate after the claim; also when the
   earlier rows have been retired, replaced or demoted in the meantime.
   */
  lemma NewTrustExceedsAllPast(states: seq<Sys>, steps: seq<Step>, i: nat, j: nat, id: ConnId)
    requires IsRun(states, steps) && i <= j < |steps|
    requires states[j].store.owner.Claimed? && NewlyTrusted(states[j].store, states[j + 1].store, id)
    ensures var generation := states[j + 1].store.trusted[id].established;
            && generation.Some?
            && (forall k :: k in states[i].store.trusted && states[i].store.trusted[k].established.Some? ==>
                  states[i].store.trusted[k].established.value < generation.value)
            && (states[i].store.owner.Claimed? ==> forall k :: k in states[i].store.candidates ==>
                  states[i].store.candidates[k].established < generation.value)
            && Above(generation.value, states[i].store.guard.overflow)
  {
    RunInv(states, steps, i);
    RunInv(states, steps, j);
    RunAdvances(states, steps, i, j);
    NewTrustClearsFloors(states[j], steps[j], id);
    var s := states[i].store;
    forall k | k in s.trusted && s.trusted[k].established.Some?
      ensures NotBelow(s.trusted[k].established, HighWater(s))
    {
      assert SoleId(s.trusted) == k;
    }
  }

  /**
   Nothing is auto-selected after ambiguity: a candidate kept by a claimed
   installation never becomes trusted, now or later, at the generation it is
   stored with.
   */
  lemma CandidateNeverTrustedAsStored(states: seq<Sys>, steps: seq<Step>, i: nat, j: nat, id: ConnId)
    requires IsRun(states, steps) && i <= j < |steps|
    requires states[i].store.owner.Claimed? && id in states[i].store.candidates
    ensures NewlyTrusted(states[j].store, states[j + 1].store, id) ==>
              states[j + 1].store.trusted[id].established != Some(states[i].store.candidates[id].established)
  {
    RunAdvances(states, steps, i, j);
    if NewlyTrusted(states[j].store, states[j + 1].store, id) {
      NewTrustExceedsAllPast(states, steps, i, j, id);
    }
  }

  /** The single exception: the claim itself may promote the one candidate it was made for. */
  lemma ClaimPromotesItsOwnCandidate(s: Sys, step: Step, id: ConnId)
    requires Inv(s) && CanStep(s, step) && s.store.owner.Unclaimed?
    requires NewlyTrusted(s.store, Next(s, step).store, id)
    ensures step.FinishClaim? && s.work.ClaimLookup?
    ensures PromotedByClaim(s.store, Next(s, step).store, s.work.request.user, id)
  {
    match step
    case FinishTrigger(r, now) =>
      if r.Found? { ApplyUnclaimedSound(s.store, r.answer, s.work.snap, now); }
    case FinishClaim(r, now) =>
      CommitClaimSound(s.store, s.work.request, s.work.seen, r, now);
    case _ =>
  }

  // ----- lookups never widen stale rights ---------------------------------------------------------

  /**
   A row gains `enabled` or a right only from an answer that was requested at
   the very revision the row still has; every conflict path only shrinks it.
   */
  lemma WideningNeedsRevision(s: Sys, step: Step, id: ConnId)
    requires Inv(s) && CanStep(s, step)
    requires id in s.store.trusted && id in Next(s, step).store.trusted
    ensures Narrowed(s.store.trusted[id], Next(s, step).store.trusted[id]) || WidenedByAnswer(s, step, id)
  {
    if step.FinishTrigger? {
      TriggerNarrows(s, step.result, step.now, id);
    } else if step.FinishStartup? {
      StartupNarrows(s, step.result, step.now, id);
    } else {
      assert !step.FinishClaim? by { assert s.store.owner.Claimed?; }
      OtherStepsNarrow(s, step, id);
    }
  }

  /** `after` has exactly the rights of an answer requested at the row's current revision. */
  predicate WidenedBy(s: Sys, r: LookupResult, id: ConnId, after: Trusted)
    requires (s.work.TriggerLookup? || s.work.StartupLookup?) && id in s.store.trusted
  {
    && r.Found? && r.answer.id == id
    && s.work.snap.trustedId == Some(id) && s.work.snap.trusted == Some(s.store.trusted[id].revision)
    && after.rights == r.answer.rights && after.enabled == r.answer.enabled
  }

  lemma ApplyNarrows(s: Store, a: Authoritative, snap: Snapshot, now: int, id: ConnId)
    requires StoreSound(s) && s.owner.Claimed? && id in s.trusted && WellFormed(a)
    ensures var t := ApplyClaimed(s, a, snap, now);
            t.Some? && id in t.value.trusted ==>
              var before, after := s.trusted[id], t.value.trusted[id];
              || Narrowed(before, after)
              || (a.id == id && snap.trusted == Some(before.revision)
                  && after.rights == a.rights && after.enabled == a.enabled)
  {
    WriteNarrows(s, a, now, snap, id);
  }

  lemma CommitNarrows(s: Sys, r: LookupResult, now: int, id: ConnId)
    requires Inv(s) && CanStep(s, FinishTrigger(r, now)) && id in s.store.trusted
    ensures var t := TriggerCommit(s, r, now);
            t.Some? && id in t.value.trusted ==>
              Narrowed(s.store.trusted[id], t.value.trusted[id]) || WidenedBy(s, r, id, t.value.trusted[id])
  {
    assert SoleId(s.store.trusted) == id;
    if r.Found? { ApplyNarrows(s.store, r.answer, s.work.snap, now, id); }
  }

  lemma TriggerNarrows(s: Sys, r: LookupResult, now: int, id: ConnId)
    requires Inv(s) && CanStep(s, FinishTrigger(r, now))
    requires id in s.store.trusted && id in DoFinishTrigger(s, r, now).store.trusted
    ensures var after := DoFinishTrigger(s, r, now).store.trusted[id];
            Narrowed(s.store.trusted[id], after) || WidenedBy(s, r, id, after)
  {
    CommitNarrows(s, r, now, id);
  }

  lemma StartupNarrows(s: Sys, r: LookupResult, now: int, id: ConnId)
    requires Inv(s) && CanStep(s, FinishStartup(r, now))
    requires id in s.store.trusted && id in DoFinishStartup(s, r, now).store.trusted
    ensures var after := DoFinishStartup(s, r, now).store.trusted[id];
            Narrowed(s.store.trusted[id], after) || WidenedBy(s, r, id, after)
  {
    assert SoleId(s.store.trusted) == id;
    if r.Found? { WriteNarrows(s.store, r.answer, now, s.work.snap, id); }
  }

  ghost predicate WidenedByAnswer(s: Sys, step: Step, id: ConnId)
    requires CanStep(s, step) && id in s.store.trusted && id in Next(s, step).store.trusted
  {
    (step.FinishTrigger? || step.FinishStartup?) && WidenedBy(s, step.result, id, Next(s, step).store.trusted[id])
  }

  lemma OtherStepsNarrow(s: Sys, step: Step, id: ConnId)
    requires Inv(s) && CanStep(s, step) && !step.FinishTrigger? && !step.FinishStartup? && !step.FinishClaim?
    requires id in s.store.trusted && id in Next(s, step).store.trusted
    ensures Narrowed(s.store.trusted[id], Next(s, step).store.trusted[id])
  {
  }

  lemma WriteNarrows(s: Store, a: Authoritative, now: int, snap: Snapshot, id: ConnId)
    requires StoreSound(s) && s.owner.Claimed? && id in s.trusted && WellFormed(a)
    ensures var (t, w) := Reconcile(s, a, now, snap.trusted, snap.candidate, snap.guard);
            id in t.trusted ==>
              var before, after := s.trusted[id], t.trusted[id];
              || Narrowed(before, after)
              || (a.id == id && snap.trusted == Some(before.revision)
                  && after.rights == a.rights && after.enabled == a.enabled)
  {
    assert SoleId(s.trusted) == id;
    if a.id == id && s.owner.user == a.user {
      ReconcileSameSound(s, a, snap.trusted);
    }
  }

  /** One and the same lookup is in progress from state `b` up to state `f`. */
  ghost predicate Window(states: seq<Sys>, b: nat, f: nat) {
    && b < f < |states|
    && (states[f].work.TriggerLookup? || states[f].work.StartupLookup?)
    && forall i :: b <= i <= f ==> states[i].work == states[f].work
  }

  lemma WindowStep(s: Sys, step: Step)
    requires CanStep(s, step) && !s.work.Idle? && Next(s, step).work == s.work
    ensures step.OutboxDisable?
  {
  }

  lemma {:induction false} DisabledStays(states: seq<Sys>, steps: seq<Step>, d: nat, f: nat, id: ConnId)
    requires IsRun(states, steps) && d < f < |states|
    requires forall i :: d <= i <= f ==> states[i].work == states[f].work
    requires !states[f].work.Idle?
    requires steps[d] == OutboxDisable(id) && id in states[d].store.trusted
    ensures id in states[f].store.trusted
    ensures !states[f].store.trusted[id].enabled
    ensures states[d].store.trusted[id].revision < states[f].store.trusted[id].revision
    decreases f
  {
    if d + 1 < f {
      DisabledStays(states, steps, d, f - 1, id);
      WindowStep(states[f - 1], steps[f - 1]);
    }
  }

  /** What the store looks like when a lookup ends in whose window the row was disabled. */
  predicate DisabledInWindow(s: Sys, id: ConnId) {
    && Inv(s) && (s.work.TriggerLookup? || s.work.StartupLookup?)
    && id in s.store.trusted && !s.store.trusted[id].enabled
    && s.work.snap.trusted.Some? && s.work.snap.trusted.value < s.store.trusted[id].revision
  }

  lemma DisabledTrigger(s: Sys, r: LookupResult, now: int, id: ConnId)
    requires DisabledInWindow(s, id) && CanStep(s, FinishTrigger(r, now))
    ensures var t := TriggerCommit(s, r, now);
            t.Some? ==> id in t.value.trusted && !t.value.trusted[id].enabled
  {
    if r.Found? { StaleWriteKeepsRow(s.store, r.answer, now, s.work.snap, id); }
    if r.NotFound? { StaleRetireConflicts(s.store, s.work.id, s.work.snap, id); }
  }

  lemma DisabledStartup(s: Sys, r: LookupResult, now: int, id: ConnId)
    requires DisabledInWindow(s, id) && CanStep(s, FinishStartup(r, now))
    ensures var t := DoFinishStartup(s, r, now).store; id in t.trusted && !t.trusted[id].enabled
  {
    if r.Found? { StaleWriteKeepsRow(s.store, r.answer, now, s.work.snap, id); }
    if r.NotFound? { StaleRetireConflicts(s.store, s.work.id, s.work.snap, id); }
  }

  lemma DisabledSettled(s: Sys, committed: Option<Store>, id: ConnId)
    requires DisabledInWindow(s, id) && s.work.TriggerLookup?
    requires committed.Some? ==> id in committed.value.trusted && !committed.value.trusted[id].enabled
    ensures var t := SettleTrigger(s, committed).store; id in t.trusted && !t.trusted[id].enabled
  {
  }

  lemma DisabledAtEnd(states: seq<Sys>, steps: seq<Step>, b: nat, d: nat, f: nat, id: ConnId)
    requires IsRun(states, steps) && Window(states, b, f) && b <= d < f < |steps|
    requires steps[d] == OutboxDisable(id) && id in states[d].store.trusted
    ensures DisabledInWindow(states[f], id)
  {
    DisabledStays(states, steps, d, f, id);
    RunInv(states, steps, d);
    RunInv(states, steps, f);
    assert states[d].work == states[f].work;
  }

  /**
   A disable committed by the outbox worker while a lookup is in progress is
   never undone by that lookup, whatever Telegram answers: the connection is
   still trusted and still disabled when the lookup has been applied.
   */
  lemma DisableSurvivesLookup(states: seq<Sys>, steps: seq<Step>, b: nat, d: nat, f: nat, id: ConnId)
    requires IsRun(states, steps) && Window(states, b, f) && b <= d < f < |steps|
    requires steps[d] == OutboxDisable(id) && id in states[d].store.trusted
    requires steps[f].FinishTrigger? || steps[f].FinishStartup?
    ensures id in states[f + 1].store.trusted
    ensures !states[f + 1].store.trusted[id].enabled
  {
    DisabledAtEnd(states, steps, b, d, f, id);
    var s, r, now := states[f], steps[f].result, steps[f].now;
    if steps[f].FinishStartup? {
      DisabledStartup(s, r, now, id);
    } else {
      DisabledTrigger(s, r, now, id);
      DisabledSettled(s, TriggerCommit(s, r, now), id);
    }
  }

  lemma StaleWriteKeepsRow(s: Store, a: Authoritative, now: int, snap: Snapshot, id: ConnId)
    requires StoreSound(s) && id in s.trusted && WellFormed(a)
    requires snap.trusted != Some(s.trusted[id].revision) && !s.trusted[id].enabled
    ensures var t := Reconcile(s, a, now, snap.trusted, snap.candidate, snap.guard).0;
            id in t.trusted && !t.trusted[id].enabled
  {
    assert SoleId(s.trusted) == id;
  }

  lemma StaleRetireConflicts(s: Store, asked: ConnId, snap: Snapshot, id: ConnId)
    requires StoreSound(s) && id in s.trusted && snap.trusted.GetOr(0) != s.trusted[id].revision
    ensures Retire(s, asked, snap.trusted.GetOr(0)).0.trusted == s.trusted
  {
    assert SoleId(s.trusted) == id;
  }

  // ----- a closed connection gate always has something left to open it ------------------------------

  /** Behind an open global gate, a gated trusted row has a recorded trigger of its own. */
  ghost predicate Resolvable(s: Sys) {
    s.store.gate.state == Ready ==>
      forall id :: id in s.store.trusted && !s.store.trusted[id].confirmed ==> HasTrigger(s.log, id)
  }

  /** The history pass finds no recorded trigger that is a week old and unnamed. */
  ghost predicate SparesRecorded(s: Sys, step: Step) {
    step.Purge? ==> forall u :: Recorded(s.log, u) ==> Survives(s.log, u, step.now, step.named)
  }

  /** An answer leaves no gated row with its own ID behind, unless it is refused. */
  lemma FoundSettlesRow(s: Store, a: Authoritative, snap: Snapshot, now: int, id: ConnId)
    requires StoreSound(s) && s.owner.Claimed? && WellFormed(a) && ApplyClaimed(s, a, snap, now).Some?
    requires snap.trustedId.None? ==> s.trusted == map[]
    requires snap.trustedId.Some? ==> snap.trustedId.value in s.trusted
    requires var t := ApplyClaimed(s, a, snap, now).value; id in t.trusted && !t.trusted[id].confirmed
    ensures id in s.trusted && !s.trusted[id].confirmed && id != a.id
  {
    if s.trusted != map[] { assert SoleId(s.trusted) in s.trusted; }
  }

  /** A committed trigger leaves no gated row with its own ID behind. */
  lemma TriggerSettlesRow(s: Sys, result: LookupResult, now: int, id: ConnId)
    requires Inv(s) && CanStep(s, FinishTrigger(result, now))
    requires var r := TriggerCommit(s, result, now); r.Some? && id in r.value.trusted && !r.value.trusted[id].confirmed
    ensures id in s.store.trusted && !s.store.trusted[id].confirmed && id != s.work.id
  {
    match result
    case Found(a) =>
      if s.store.owner.Unclaimed? {
        ApplyUnclaimedSound(s.store, a, s.work.snap, now);
      } else {
        FoundSettlesRow(s.store, a, s.work.snap, now, id);
      }
    case NotFound =>
      RetireSound(s.store, s.work.id, s.work.snap.trusted.GetOr(0));
  }

  /** Behind an open gate: the row is gated, and this trigger of its own is still recorded. */
  ghost predicate HasTrigger(log: map<int, Trigger>, id: ConnId) {
    exists u :: Recorded(log, u) && log[u].id == id
  }

  lemma StepResolvable(s: Sys, step: Step)
    requires Inv(s) && Resolvable(s) && CanStep(s, step) && SparesRecorded(s, step)
    ensures Resolvable(Next(s, step))
  {
    var t := Next(s, step);
    if t.store.gate.state == Ready {
      forall id | id in t.store.trusted && !t.store.trusted[id].confirmed ensures HasTrigger(t.log, id) {
        match step
        case Record(u, k, at) => RecordResolvable(s, u, k, at, id);
        case FinishTrigger(r, now) => FinishTriggerResolvable(s, r, now, id);
        case _ => QuietResolvable(s, step, id);
      }
    }
  }

  /** Every other step leaves an open gate, the gated rows behind it and their triggers as they are. */
  lemma QuietResolvable(s: Sys, step: Step, id: ConnId)
    requires Inv(s) && Resolvable(s) && CanStep(s, step) && SparesRecorded(s, step)
    requires !step.Record? && !step.FinishTrigger?
    requires var t := Next(s, step);
             t.store.gate.state == Ready && id in t.store.trusted && !t.store.trusted[id].confirmed
    ensures HasTrigger(Next(s, step).log, id)
  {
    QuietKeepsRow(s, step, id);
    StillRecorded(s, Next(s, step), id);
  }

  lemma QuietKeepsRow(s: Sys, step: Step, id: ConnId)
    requires Inv(s) && CanStep(s, step) && SparesRecorded(s, step) && !step.Record? && !step.FinishTrigger?
    requires var t := Next(s, step);
             t.store.gate.state == Ready && id in t.store.trusted && !t.store.trusted[id].confirmed
    ensures s.store.gate.state == Ready && id in s.store.trusted && !s.store.trusted[id].confirmed
    ensures forall u :: Recorded(s.log, u) ==> u in Next(s, step).log && Next(s, step).log[u] == s.log[u]
  {
    if step.FinishClaim? {
      ClaimConfirms(s, step.result, step.now, id);
    }
  }

  /** A row promoted by the claim is confirmed. */
  lemma ClaimConfirms(s: Sys, r: LookupResult, now: int, id: ConnId)
    requires Inv(s) && CanStep(s, FinishClaim(r, now)) && id in DoFinishClaim(s, r, now).store.trusted
    ensures DoFinishClaim(s, r, now).store.trusted[id].confirmed
  {
    CommitClaimSound(s.store, s.work.request, s.work.seen, r, now);
  }

  lemma StillRecorded(s: Sys, t: Sys, id: ConnId)
    requires Resolvable(s) && s.store.gate.state == Ready && id in s.store.trusted && !s.store.trusted[id].confirmed
    requires forall u :: Recorded(s.log, u) ==> u in t.log && t.log[u] == s.log[u]
    ensures HasTrigger(t.log, id)
  {
    var u :| Recorded(s.log, u) && s.log[u].id == id;
    assert Recorded(t.log, u) && t.log[u].id == id;
  }

  lemma RecordResolvable(s: Sys, u: int, k: ConnId, at: int, id: ConnId)
    requires Inv(s) && Resolvable(s) && CanStep(s, Record(u, k, at)) && s.store.gate.state == Ready
    requires var t := Next(s, Record(u, k, at)); id in t.store.trusted && !t.store.trusted[id].confirmed
    ensures HasTrigger(Next(s, Record(u, k, at)).log, id)
  {
    var t := Next(s, Record(u, k, at));
    if u !in s.log && id == k {
      assert Recorded(t.log, u) && t.log[u].id == id;
    } else {
      var v :| Recorded(s.log, v) && s.log[v].id == id;
      assert Recorded(t.log, v) && t.log[v].id == id;
    }
  }

  lemma FinishTriggerResolvable(s: Sys, r: LookupResult, now: int, id: ConnId)
    requires Inv(s) && Resolvable(s) && CanStep(s, FinishTrigger(r, now))
    requires var t := DoFinishTrigger(s, r, now);
             t.store.gate.state == Ready && id in t.store.trusted && !t.store.trusted[id].confirmed
    ensures HasTrigger(DoFinishTrigger(s, r, now).log, id)
  {
    var t := DoFinishTrigger(s, r, now);
    var committed := TriggerCommit(s, r, now);
    if committed.Some? {
      TriggerKeepsGate(s, r, now);
      if committed.value.trusted == t.store.trusted && t.log != s.log {
        TriggerSettlesRow(s, r, now, id);
      }
    }
    var v :| Recorded(s.log, v) && s.log[v].id == id;
    assert Recorded(t.log, v) && t.log[v].id == id;
  }

  lemma TriggerKeepsGate(s: Sys, r: LookupResult, now: int)
    requires Inv(s) && CanStep(s, FinishTrigger(r, now)) && TriggerCommit(s, r, now).Some?
    ensures TriggerCommit(s, r, now).value.gate == s.store.gate
  {
    if r.Found? {
      OutcomeKeepsGate(s.store, r.answer, now, s.work.snap.trusted, s.work.snap.candidate, s.work.snap.guard);
      if s.store.owner.Unclaimed? { ApplyUnclaimedSound(s.store, r.answer, s.work.snap, now); }
    }
  }

  /** No connection is ever gated with nothing left to resolve it, as long as pending triggers are kept. */
  lemma {:induction false} GatedRowHasTrigger(states: seq<Sys>, steps: seq<Step>, i: nat)
    requires IsRun(states, steps) && i < |states|
    requires forall k :: 0 <= k < i ==> SparesRecorded(states[k], steps[k])
    ensures Resolvable(states[i])
  {
    if i > 0 {
      GatedRowHasTrigger(states, steps, i - 1);
      RunInv(states, steps, i - 1);
      StepResolvable(states[i - 1], steps[i - 1]);
    }
  }

  /** A recorded trigger of the connection outlives the pass. */
  ghost predicate TriggerSurvives(log: map<int, Trigger>, id: ConnId, now: int, named: set<int>) {
    exists u :: Recorded(log, u) && log[u].id == id && Survives(log, u, now, named)
  }

  /** A history pass strands a gated connection exactly when each of its recorded triggers is a week old and unnamed. */
  lemma PurgeStrandsExactly(s: Sys, now: int, named: set<int>, id: ConnId)
    requires Inv(s) && Resolvable(s) && s.work.Idle? && s.store.gate.state == Ready
    requires id in s.store.trusted && !s.store.trusted[id].confirmed
    ensures Resolvable(Next(s, Purge(now, named))) <==> TriggerSurvives(s.log, id, now, named)
  {
    var t := Next(s, Purge(now, named));
    assert SoleId(s.store.trusted) == id;
    if TriggerSurvives(s.log, id, now, named) {
      var u :| Recorded(s.log, u) && s.log[u].id == id && Survives(s.log, u, now, named);
      assert Recorded(t.log, u) && t.log[u].id == id;
    }
    if Resolvable(t) {
      var u :| Recorded(t.log, u) && t.log[u].id == id;
      assert Recorded(s.log, u) && s.log[u].id == id && Survives(s.log, u, now, named);
    }
  }

  /** When the connection's recorded triggers were received. */
  ghost function TriggerDates(log: map<int, Trigger>, id: ConnId): set<int> {
    set u | u in log && Recorded(log, u) && log[u].id == id :: log[u].at
  }

  /** Recorded triggers have neither audits nor queued actions, so only the newest date counts. */
  lemma PurgeStrandsByAge(s: Sys, now: int, named: set<int>, id: ConnId)
    requires Inv(s) && Resolvable(s) && s.work.Idle? && s.store.gate.state == Ready
    requires id in s.store.trusted && !s.store.trusted[id].confirmed
    requires forall u :: u in named ==> !Recorded(s.log, u)
    ensures TriggerDates(s.log, id) != {}
    ensures Resolvable(Next(s, Purge(now, named)))
            <==> now - TRIGGER_RETENTION < Maximum(TriggerDates(s.log, id))
  {
    var first :| Recorded(s.log, first) && s.log[first].id == id;
    assert s.log[first].at in TriggerDates(s.log, id);
    PurgeStrandsExactly(s, now, named, id);
    var newest := Maximum(TriggerDates(s.log, id));
    var u :| u in s.log && Recorded(s.log, u) && s.log[u].id == id && s.log[u].at == newest;
    if TriggerSurvives(s.log, id, now, named) {
      var v :| Recorded(s.log, v) && s.log[v].id == id && Survives(s.log, v, now, named);
      assert s.log[v].at in TriggerDates(s.log, id);
    }
  }

  // ----- readiness -------------------------------------------------------------------------------------

  lemma ReadinessAt(s: Store, now: int)
    requires StoreSound(s)
    ensures ClassifyReadiness(s, now).None? <==>
              || s.gate.state != Ready
              || exists id :: id in s.trusted &&
                   (!s.trusted[id].confirmed
                    || Fresh(s.candidates, now - CANDIDATE_RETENTION) != map[]
                    || s.guard.overflow.Some?)
  {
    var retained := Fresh(s.candidates, now - CANDIDATE_RETENTION);
    assert forall id :: id in retained ==> retained[id] == s.candidates[id];
    if s.trusted != map[] {
      var id := SoleId(s.trusted);
      assert id in s.trusted;
    }
  }

  /** Readiness fails for exactly four causes; its ownership checks never fire. */
  lemma ReadinessIsExact(states: seq<Sys>, steps: seq<Step>, i: nat, now: int)
    requires IsRun(states, steps) && i < |states|
    ensures var s := states[i].store;
            ClassifyReadiness(s, now).None? <==>
              || s.gate.state != Ready
              || exists id :: id in s.trusted &&
                   (!s.trusted[id].confirmed
                    || Fresh(s.candidates, now - CANDIDATE_RETENTION) != map[]
                    || s.guard.overflow.Some?)
  {
    RunInv(states, steps, i);
    ReadinessAt(states[i].store, now);
  }

  /** Once candidates have overflowed, no later trusted connection is ever reported ready. */
  lemma OverflowBlocksReadiness(states: seq<Sys>, steps: seq<Step>, i: nat, j: nat, now: int)
    requires IsRun(states, steps) && i <= j < |states|
    requires states[i].store.guard.overflow.Some? && states[j].store.trusted != map[]
    ensures ClassifyReadiness(states[j].store, now).None?
  {
    RunAdvances(states, steps, i, j);
    RunInv(states, steps, j);
  }

  // ----- capacity pruning --------------------------------------------------------------------------------

  /** The rows a prune drops for lack of space, as opposed to age. */
  ghost function Evicted(s: Store, cutoff: int, limit: nat): set<ConnId> {
    Fresh(s.candidates, cutoff).Keys - Prune(s, cutoff, limit).candidates.Keys
  }

  /** Pruning keeps exactly the best-ranked fresh rows and guards against all it dropped for space. */
  lemma PruneKeepsTheTop(s: Store, cutoff: int, limit: nat)
    ensures var live := Fresh(s.candidates, cutoff);
            var t := Prune(s, cutoff, limit);
            && IsTop(Generations(live), t.candidates.Keys, limit)
            && (forall id :: id in t.candidates ==> t.candidates[id] == s.candidates[id])
            && (forall id :: id in Evicted(s, cutoff, limit) ==>
                  t.guard.overflow.Some? && s.candidates[id].established <= t.guard.overflow.value)
            && (Evicted(s, cutoff, limit) == {} <==> |live| <= limit)
            && NotBelow(s.guard.overflow, t.guard.overflow)
  {
    var live := Fresh(s.candidates, cutoff);
    var t := Prune(s, cutoff, limit);
    if |live| <= limit {
      assert t.candidates.Keys == live.Keys;
    } else {
      var top := Top(Generations(live), live.Keys, limit);
      TopIsTop(Generations(live), live.Keys, limit);
      assert t.candidates.Keys == top;
      assert |Generations(live)| == |Generations(live).Keys| == |live.Keys| == |live|;
      forall id | id in live ensures live[id].established in GenerationSet(live) {}
      assert |live.Keys - top| == |live.Keys| - limit;
    }
  }

  /** The state a step hands to the pruning pass, if it commits one. */
  ghost function PrunedBy(s: Sys, step: Step): Option<Store>
    requires CanStep(s, step)
  {
    match step
    case FinishTrigger(Found(a), now) =>
      if s.store.owner.Unclaimed? && DoFinishTrigger(s, step.result, now).log != s.log
      then Some(ApplyCandidate(s.store, a, now, s.work.snap.candidate).0) else None
    case FinishClaim(_, now) => Some(s.store)
    case _ => None
  }

  /** The generations a step drops for lack of space. */
  ghost function EvictedGenerations(s: Sys, step: Step): set<int>
    requires CanStep(s, step)
  {
    var pruned := PrunedBy(s, step);
    if pruned.None? then {} else CapacityLoss(pruned.value, step.now - CANDIDATE_RETENTION)
  }

  ghost function CapacityLoss(s: Store, cutoff: int): set<int> {
    set id | id in Evicted(s, cutoff, CANDIDATE_LIMIT) :: s.candidates[id].established
  }

  lemma LossIsGuarded(s: Store, cutoff: int, generation: int)
    requires generation in CapacityLoss(s, cutoff)
    ensures var g := Prune(s, cutoff, CANDIDATE_LIMIT).guard.overflow; g.Some? && generation <= g.value
  {
    PruneKeepsTheTop(s, cutoff, CANDIDATE_LIMIT);
  }

  predicate Covers(s: Store, generation: int) {
    s.guard.overflow.Some? && generation <= s.guard.overflow.value
  }

  lemma EvictionIsGuarded(s: Sys, step: Step, generation: int)
    requires Inv(s) && CanStep(s, step) && generation in EvictedGenerations(s, step)
    ensures Covers(Next(s, step).store, generation)
  {
    if step.FinishTrigger? {
      TriggerCovers(s, step, generation);
    } else {
      OnlyTwoEvict(s, step, generation);
      ClaimCovers(s, step, generation);
    }
  }

  lemma OnlyTwoEvict(s: Sys, step: Step, generation: int)
    requires CanStep(s, step) && !step.FinishTrigger? && generation in EvictedGenerations(s, step)
    ensures step.FinishClaim? && generation in CapacityLoss(s.store, step.now - CANDIDATE_RETENTION)
  {
  }

  lemma TriggerCovers(s: Sys, step: Step, generation: int)
    requires Inv(s) && CanStep(s, step) && step.FinishTrigger? && generation in EvictedGenerations(s, step)
    ensures Covers(Next(s, step).store, generation)
  {
    TriggerEviction(s, step.result, step.now, generation);
  }

  lemma ClaimCovers(s: Sys, step: Step, generation: int)
    requires Inv(s) && CanStep(s, step) && step.FinishClaim?
    requires generation in CapacityLoss(s.store, step.now - CANDIDATE_RETENTION)
    ensures Covers(Next(s, step).store, generation)
  {
    assert step == FinishClaim(step.result, step.now);
    ClaimEviction(s, step.result, step.now, generation);
  }

  lemma ClaimEviction(s: Sys, r: LookupResult, now: int, generation: int)
    requires Inv(s) && CanStep(s, FinishClaim(r, now))
    requires generation in CapacityLoss(s.store, now - CANDIDATE_RETENTION)
    ensures Covers(DoFinishClaim(s, r, now).store, generation)
  {
    ClaimKeepsGuard(s, r, now);
    LossIsGuarded(s.store, now - CANDIDATE_RETENTION, generation);
  }

  lemma TriggerEviction(s: Sys, r: LookupResult, now: int, generation: int)
    requires Inv(s) && CanStep(s, FinishTrigger(r, now)) && generation in EvictedGenerations(s, FinishTrigger(r, now))
    ensures Covers(DoFinishTrigger(s, r, now).store, generation)
  {
    var pruned := PrunedBy(s, FinishTrigger(r, now)).value;
    LossIsGuarded(pruned, now - CANDIDATE_RETENTION, generation);
    PruningTriggerCommits(s, r, now);
  }

  lemma ClaimKeepsGuard(s: Sys, r: LookupResult, now: int)
    requires Inv(s) && CanStep(s, FinishClaim(r, now))
    ensures DoFinishClaim(s, r, now).store.guard == Prune(s.store, now - CANDIDATE_RETENTION, CANDIDATE_LIMIT).guard
  {
    CommitClaimSound(s.store, s.work.request, s.work.seen, r, now);
  }

  lemma PruningTriggerCommits(s: Sys, r: LookupResult, now: int)
    requires Inv(s) && CanStep(s, FinishTrigger(r, now)) && PrunedBy(s, FinishTrigger(r, now)).Some?
    ensures DoFinishTrigger(s, r, now).store
            == Prune(PrunedBy(s, FinishTrigger(r, now)).value, now - CANDIDATE_RETENTION, CANDIDATE_LIMIT)
  {
  }

  /** Every connection trusted after an eviction, in any continuation, is newer than all evicted ones. */
  lemma NewTrustExceedsEvicted(states: seq<Sys>, steps: seq<Step>, i: nat, j: nat, generation: int, id: ConnId)
    requires IsRun(states, steps) && i < j < |steps|
    requires generation in EvictedGenerations(states[i], steps[i])
    requires states[j].store.owner.Claimed? && NewlyTrusted(states[j].store, states[j + 1].store, id)
    ensures states[j + 1].store.trusted[id].established.Some?
    ensures generation < states[j + 1].store.trusted[id].established.value
  {
    RunInv(states, steps, i);
    EvictionIsGuarded(states[i], steps[i], generation);
    NewTrustExceedsAllPast(states, steps, i + 1, j, id);
  }

  // ----- effects -------------------------------------------------------------------------------------------

  lemma RightsCheckAt(s: Store, id: ConnId, required: RequiredRight)
    requires StoreSound(s) && EnsureRight(s, id, required)
    ensures s.gate.state == Ready && s.owner.Claimed? && s.trusted.Keys == {id}
    ensures s.trusted[id].owner == s.owner.user && s.trusted[id].confirmed && s.trusted[id].enabled
    ensures Permits(s.trusted[id].rights, required)
  {
    assert SoleId(s.trusted) == id;
  }

  /** A passed rights check means an open gate and the Owner's own, confirmed, enabled connection. */
  lemma RightsCheckIsSafe(states: seq<Sys>, steps: seq<Step>, i: nat, id: ConnId, required: RequiredRight)
    requires IsRun(states, steps) && i < |states|
    requires EnsureRight(states[i].store, id, required)
    ensures var s := states[i].store;
            && s.gate.state == Ready && s.owner.Claimed?
            && s.trusted.Keys == {id}
            && s.trusted[id].owner == s.owner.user
            && s.trusted[id].confirmed && s.trusted[id].enabled
            && Permits(s.trusted[id].rights, required)
  {
    RunInv(states, steps, i);
    RightsCheckAt(states[i].store, id, required);
  }

  lemma AuthFailedIsSticky(s: Sys, step: Step)
    requires Inv(s) && CanStep(s, step) && s.store.gate.state == AuthFailed && !step.Restart?
    ensures Next(s, step).store.gate.state == AuthFailed
  {
    match step
    case FinishTrigger(r, now) =>
      if r.Found? || r.NotFound? {
        if TriggerCommit(s, r, now).Some? { TriggerKeepsGate(s, r, now); }
      }
    case FinishStartup(r, now) =>
      if r.Found? {
        OutcomeKeepsGate(s.store, r.answer, now, s.work.snap.trusted, s.work.snap.candidate, s.work.snap.guard);
      }
    case FinishClaim(r, now) => CommitClaimSound(s.store, s.work.request, s.work.seen, r, now);
    case _ =>
  }

  /** After an authentication failure no rights check passes until the process restarts. */
  lemma {:induction false} NoEffectsAfterAuthFailure(states: seq<Sys>, steps: seq<Step>, i: nat, j: nat)
    requires IsRun(states, steps) && i <= j < |states|
    requires states[i].store.gate.state == AuthFailed
    requires forall k :: i <= k < j ==> !steps[k].Restart?
    ensures states[j].store.gate.state == AuthFailed
    ensures forall id, required :: !EnsureRight(states[j].store, id, required)
    decreases j
  {
    if i < j {
      NoEffectsAfterAuthFailure(states, steps, i, j - 1);
      RunInv(states, steps, j - 1);
      AuthFailedIsSticky(states[j - 1], steps[j - 1]);
    }
  }

  // ----- the Owner and its cached copy -----------------------------------------------------------------------

  /** Once bound, the Owner user never changes, the floor never falls and the chat changes at most once. */
  lemma OwnerIsBoundForGood(states: seq<Sys>, steps: seq<Step>, i: nat, j: nat, k: nat)
    requires IsRun(states, steps) && i <= j <= k < |states|
    requires states[i].store.owner.Claimed?
    ensures states[j].store.owner.Claimed? && states[k].store.owner.Claimed?
    ensures states[k].store.owner.user == states[i].store.owner.user
    ensures NotBelow(states[i].store.owner.floor, states[k].store.owner.floor)
    ensures states[j].store.owner.chat != states[i].store.owner.chat ==>
              states[k].store.owner.chat == states[j].store.owner.chat
  {
    RunAdvances(states, steps, i, j);
    RunAdvances(states, steps, i, k);
    RunAdvances(states, steps, j, k);
  }

  /** The parser's cached Owner never locks out a private command the database would authorize. */
  lemma ParserAcceptsAuthorizedSources(states: seq<Sys>, steps: seq<Step>, i: nat, user: int, chat: int,
      privateChat: bool)
    requires IsRun(states, steps) && i < |states|
    requires Authorized(states[i].store.owner, user, chat, privateChat)
    ensures ParserAccepts(states[i].handle, true, user, chat, privateChat)
    ensures states[i].handle.user == states[i].store.owner.user
  {
    RunInv(states, steps, i);
  }
}
