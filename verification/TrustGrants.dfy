/** No trusted connection may do more than Telegram's last answer about it allows. */
module TrustGrants {
  import opened Prelude
  import opened Ranking
  import opened Trust
  import opened TrustSystem
  import opened TrustInvariant
  import opened TrustRuns
  import opened TrustLaws

  /** The step ends a lookup with an answer about this connection. */
  predicate AnswersFor(step: Step, id: ConnId) {
    && (step.FinishTrigger? || step.FinishStartup? || step.FinishClaim?)
    && step.result.Found? && step.result.answer.id == id
  }

  lemma ClaimTrust(s: Sys, r: LookupResult, now: int, id: ConnId)
    requires Inv(s) && CanStep(s, FinishClaim(r, now)) && id in DoFinishClaim(s, r, now).store.trusted
    ensures r.Found? && r.answer.id == id
    ensures var t := DoFinishClaim(s, r, now).store; Mirrors(t.trusted[id], r.answer) && id !in t.candidates
  {
    ClaimSettlesExactly(s, r, now);
  }

  lemma TriggerTrust(s: Sys, r: LookupResult, now: int, id: ConnId)
    requires Inv(s) && CanStep(s, FinishTrigger(r, now)) && s.store.owner.Claimed?
    requires NewlyTrusted(s.store, DoFinishTrigger(s, r, now).store, id)
    ensures r.Found? && r.answer.id == id
    ensures var t := DoFinishTrigger(s, r, now).store; Mirrors(t.trusted[id], r.answer) && id !in t.candidates
  {
    match r
    case Found(a) => TriggerSettlesExactly(s, a, now);
    case NotFound => NotFoundSettlesExactly(s, now);
    case AuthenticationFailed => AuthFailureFences(s, FinishTrigger(r, now));
    case OtherError =>
  }

  lemma StartupTrust(s: Sys, r: LookupResult, now: int, id: ConnId)
    requires Inv(s) && CanStep(s, FinishStartup(r, now)) && s.store.owner.Claimed?
    requires NewlyTrusted(s.store, DoFinishStartup(s, r, now).store, id)
    ensures r.Found? && r.answer.id == id
    ensures var t := DoFinishStartup(s, r, now).store; Mirrors(t.trusted[id], r.answer) && id !in t.candidates
  {
    StartupSettlesExactly(s, r, now);
  }

  /**
   Whatever step newly trusts a connection ends a lookup of that connection: the
   row has exactly the user, rights, switch and date of the answer, is
   confirmed, and is no candidate any more.
   */
  lemma NewTrustMirrorsAnswer(s: Sys, step: Step, id: ConnId)
    requires Inv(s) && CanStep(s, step) && NewlyTrusted(s.store, Next(s, step).store, id)
    ensures AnswersFor(step, id)
    ensures Mirrors(Next(s, step).store.trusted[id], step.result.answer) && id !in Next(s, step).store.candidates
  {
    if s.store.owner.Claimed? { NewTrustClearsFloors(s, step, id); } else { ClaimPromotesItsOwnCandidate(s, step, id); }
    match step
    case FinishTrigger(r, now) => TriggerTrust(s, r, now, id);
    case FinishStartup(r, now) => StartupTrust(s, r, now, id);
    case FinishClaim(r, now) => ClaimTrust(s, r, now, id);
  }

  // ----- the last answer ---------------------------------------------------------------------

  /** The last answer about the connection that changed anything, rather than being set aside for a retry. */
  ghost function LastAnswer(states: seq<Sys>, steps: seq<Step>, n: nat, id: ConnId): Option<Authoritative>
    requires n <= |steps| < |states|
  {
    if n == 0 then None
    else if AnswersFor(steps[n - 1], id) && states[n].store != states[n - 1].store then Some(steps[n - 1].result.answer)
    else LastAnswer(states, steps, n - 1, id)
  }

  /** An enabled row has only rights of the given answer; a confirmed one has had an answer. */
  predicate Granted(row: Trusted, last: Option<Authoritative>) {
    && (row.confirmed ==> last.Some?)
    && (row.enabled && last.Some? ==> last.value.enabled && row.rights == Intersect(row.rights, last.value.rights))
  }

  ghost predicate GrantInv(s: Store, id: ConnId, last: Option<Authoritative>) {
    id in s.trusted ==> Granted(s.trusted[id], last)
  }

  lemma NarrowedStaysGranted(before: Trusted, after: Trusted, last: Option<Authoritative>)
    requires Granted(before, last) && Narrowed(before, after) && (after.confirmed ==> before.confirmed)
    ensures Granted(after, last)
  {
  }

  /** An answer about the trusted connection itself bounds what its row may do, or leaves the store as it is. */
  lemma AnswerBounds(s: Sys, step: Step, id: ConnId)
    requires Inv(s) && CanStep(s, step) && AnswersFor(step, id) && id in Next(s, step).store.trusted
    requires Next(s, step).store != s.store
    ensures Granted(Next(s, step).store.trusted[id], Some(step.result.answer))
  {
    if id !in s.store.trusted {
      NewTrustMirrorsAnswer(s, step, id);
    } else {
      SoleRow(s.store, id);
      match step
      case FinishTrigger(r, now) => TriggerSettlesExactly(s, r.answer, now);
      case FinishStartup(r, now) => StartupSettlesExactly(s, r, now);
      case FinishClaim(_, _) =>
    }
  }

  /** Every other step only narrows the row, and confirms nothing. */
  lemma OthersNarrow(s: Sys, step: Step, id: ConnId)
    requires Inv(s) && CanStep(s, step) && !AnswersFor(step, id)
    requires id in s.store.trusted && id in Next(s, step).store.trusted
    ensures Narrowed(s.store.trusted[id], Next(s, step).store.trusted[id])
    ensures Next(s, step).store.trusted[id].confirmed ==> s.store.trusted[id].confirmed
  {
    WideningNeedsRevision(s, step, id);
    SoleRow(s.store, id);
    match step
    case FinishTrigger(r, now) => TriggerConfirmsOwn(s, r, now, id);
    case FinishStartup(r, now) => StartupSettlesExactly(s, r, now);
    case FinishClaim(_, _) =>
    case _ =>
  }

  lemma TriggerConfirmsOwn(s: Sys, r: LookupResult, now: int, id: ConnId)
    requires Inv(s) && CanStep(s, FinishTrigger(r, now)) && !AnswersFor(FinishTrigger(r, now), id)
    requires id in s.store.trusted && id in DoFinishTrigger(s, r, now).store.trusted
    ensures DoFinishTrigger(s, r, now).store.trusted[id].confirmed ==> s.store.trusted[id].confirmed
  {
    SoleRow(s.store, id);
    match r
    case Found(a) => TriggerSettlesExactly(s, a, now);
    case NotFound => NotFoundSettlesExactly(s, now);
    case _ =>
  }

  lemma GrantStep(s: Sys, step: Step, id: ConnId, last: Option<Authoritative>)
    requires Inv(s) && CanStep(s, step) && GrantInv(s.store, id, last)
    ensures GrantInv(Next(s, step).store, id,
                     if AnswersFor(step, id) && Next(s, step).store != s.store then Some(step.result.answer) else last)
  {
    var t := Next(s, step);
    if id in t.store.trusted && t.store != s.store {
      if AnswersFor(step, id) {
        AnswerBounds(s, step, id);
      } else if id !in s.store.trusted {
        NewTrustMirrorsAnswer(s, step, id);
      } else {
        OthersNarrow(s, step, id);
        NarrowedStaysGranted(s.store.trusted[id], t.store.trusted[id], last);
      }
    }
  }

  lemma GrantAt(states: seq<Sys>, steps: seq<Step>, i: nat, id: ConnId)
    requires IsRun(states, steps) && i < |steps| && Inv(states[i])
    requires GrantInv(states[i].store, id, LastAnswer(states, steps, i, id))
    ensures GrantInv(states[i + 1].store, id, LastAnswer(states, steps, i + 1, id))
  {
    GrantStep(states[i], steps[i], id, LastAnswer(states, steps, i, id));
  }

  lemma {:induction false} RunGranted(states: seq<Sys>, steps: seq<Step>, i: nat, id: ConnId)
    requires IsRun(states, steps) && i < |states|
    ensures GrantInv(states[i].store, id, LastAnswer(states, steps, i, id))
  {
    if i > 0 {
      RunGranted(states, steps, i - 1, id);
      RunInv(states, steps, i - 1);
      GrantAt(states, steps, i - 1, id);
    }
  }

  /**
   Over every run: a rights check passes only if the last answer about the
   connection that was taken into account said that it is enabled and granted
   that very right.
   */
  lemma EffectsNeedGrant(states: seq<Sys>, steps: seq<Step>, i: nat, id: ConnId, required: RequiredRight)
    requires IsRun(states, steps) && i < |states| && EnsureRight(states[i].store, id, required)
    ensures var last := LastAnswer(states, steps, i, id);
            last.Some? && last.value.id == id && last.value.enabled && Permits(last.value.rights, required)
  {
    RunGranted(states, steps, i, id);
    LastAnswerIsOwn(states, steps, i, id);
  }

  lemma {:induction false} LastAnswerIsOwn(states: seq<Sys>, steps: seq<Step>, n: nat, id: ConnId)
    requires n <= |steps| < |states|
    ensures var last := LastAnswer(states, steps, n, id); last.Some? ==> last.value.id == id
  {
    if n > 0 { LastAnswerIsOwn(states, steps, n - 1, id); }
  }

  /** An answer that is set aside leaves the row as it was; only then may it say less than the row. */
  lemma SetAsideExactly(s: Sys, a: Authoritative, now: int)
    requires Inv(s) && CanStep(s, FinishTrigger(Found(a), now)) && a.id in s.store.trusted
    ensures var t := Next(s, FinishTrigger(Found(a), now)).store;
            if Settles(s.store, a, s.work.snap) then TakenOver(s.store, t.(owner := s.store.owner), a) else t == s.store
  {
    SoleRow(s.store, a.id);
    TriggerSettlesExactly(s, a, now);
  }
}
