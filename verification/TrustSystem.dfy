/**
 The trust protocol as a state machine.  One processing worker records triggers,
 looks connections up without holding a transaction and applies the answers; one
 outbox worker may disable a connection at any moment, also inside a lookup
 window; the process may restart at any moment.  Every step is one committed (or
 rolled back) transaction.
 */
module TrustSystem {
  import opened Prelude
  import opened Ranking
  import opened Trust

  /** A recorded connection trigger in the update log; `at` is when it was received. */
  datatype Trigger = Trigger(id: ConnId, applied: bool, at: int)

  const TRIGGER_RETENTION := 7 * 24 * 60 * 60

  /** A history pass keeps what is younger than a week or named by an outbox or audit row. */
  predicate Survives(log: map<int, Trigger>, u: int, now: int, named: set<int>) {
    u in log && (now - TRIGGER_RETENTION < log[u].at || u in named)
  }

  /** Revisions captured before an external lookup. */
  datatype Snapshot = Snapshot(
    owner: Owner, candidate: Option<int>, trustedId: Option<ConnId>, trusted: Option<int>, guard: int)

  datatype ClaimRequest = ClaimRequest(user: int, chat: int, date: int)

  datatype ClaimSnapshot = ClaimSnapshot(gate: Gate, guard: Guard, candidates: map<ConnId, Candidate>)

  /** What the processing worker is in the middle of. */
  datatype Work =
    | Idle
    | TriggerLookup(update: int, id: ConnId, snap: Snapshot)
    | StartupLookup(id: ConnId, snap: Snapshot)
    | ClaimLookup(request: ClaimRequest, seen: ClaimSnapshot)

  /** `startup` is the connection still owed its start-up lookup; `handle` the in-memory Owner. */
  datatype Sys = Sys(store: Store, log: map<int, Trigger>, work: Work, startup: Option<ConnId>, handle: Owner)

  datatype LookupResult =
    | Found(answer: Authoritative)
    | NotFound
    | AuthenticationFailed
    | OtherError

  datatype Step =
    | Record(update: int, id: ConnId, at: int)
    | BeginTrigger(update: int)
    | FinishTrigger(result: LookupResult, now: int)
    | BeginStartup
    | FinishStartup(result: LookupResult, now: int)
    | BeginClaim(request: ClaimRequest, now: int)
    | FinishClaim(result: LookupResult, now: int)
    | PublishReady
    | OwnerCommand(user: int, chat: int, privateChat: bool)
    | OutboxDisable(id: ConnId)
    | Purge(now: int, named: set<int>)
    | Restart

  // ----- taking snapshots ------------------------------------------------------------

  function TakeSnapshot(s: Store, id: ConnId): Snapshot
    requires AtMostOne(s.trusted)
  {
    var sole := if s.trusted == map[] then None else Some(SoleId(s.trusted));
    Snapshot(s.owner, CandidateRevision(s, id), sole,
             if sole.None? then None else Some(s.trusted[sole.value].revision), s.guard.revision)
  }

  function CandidatesOf(candidates: map<ConnId, Candidate>, user: int): map<ConnId, Candidate> {
    map id | id in candidates && candidates[id].user == user :: candidates[id]
  }

  function TakeClaimSnapshot(s: Store, user: int, now: int): ClaimSnapshot {
    ClaimSnapshot(s.gate, s.guard, Fresh(CandidatesOf(s.candidates, user), now - CANDIDATE_RETENTION))
  }

  /** The claim asks Telegram only about an unambiguous candidate behind an open gate. */
  predicate ClaimAsksTelegram(seen: ClaimSnapshot) {
    seen.gate.state == Ready && seen.guard.overflow.None? && |seen.candidates| == 1
  }

  // ----- applying a trigger ------------------------------------------------------------

  /** `None` rolls the transaction back and schedules a retry. */
  ghost function ApplyUnclaimed(s: Store, a: Authoritative, snap: Snapshot, now: int): Option<Store> {
    var (next, outcome) := ApplyCandidate(s, a, now, snap.candidate);
    if outcome == CandidateRevisionConflict || outcome == CandidateRefused then None
    else Some(Prune(next, now - CANDIDATE_RETENTION, CANDIDATE_LIMIT))
  }

  function AdoptChat(s: Store, a: Authoritative): Option<Store>
    requires s.owner.Claimed?
  {
    if s.owner.source == LegacyFallback && a.chat.Some? then
      var owner := PromoteChat(s.owner, s.owner.user, a.chat.value, FromConnection);
      if owner.None? then None else Some(s.(owner := owner.value))
    else Some(s)
  }

  /** Which outcomes of the write are committed, and which are rolled back for a retry. */
  function SettleWrite(next: Store, outcome: TrustedWrite, a: Authoritative, matching: bool): Option<Store> {
    match outcome
    case RevisionConflict => None
    case StorageFailure => None
    case UserConflict => if matching then None else Some(next)
    case GenerationConflict => if matching then None else Some(next)
    case _ => if next.owner.Claimed? then AdoptChat(next, a) else None
  }

  function ApplyClaimed(s: Store, a: Authoritative, snap: Snapshot, now: int): Option<Store>
    requires s.owner.Claimed?
  {
    var matching := snap.trustedId == Some(a.id);
    if a.user != s.owner.user then (if matching then None else Some(s))
    else
      var (next, outcome) := Reconcile(s, a, now, snap.trusted, snap.candidate, snap.guard);
      SettleWrite(next, outcome, a, matching)
  }

  ghost function ApplyFound(s: Store, a: Authoritative, snap: Snapshot, now: int): Option<Store> {
    if s.owner != snap.owner then None
    else if s.owner.Unclaimed? then ApplyUnclaimed(s, a, snap, now)
    else ApplyClaimed(s, a, snap, now)
  }

  function ApplyNotFound(s: Store, id: ConnId, snap: Snapshot): Option<Store> {
    if s.owner != snap.owner then None
    else
      var (next, outcome) := Retire(s, id, snap.trusted.GetOr(0));
      if outcome == Reconciled then Some(next) else None
  }

  function MarkApplied(log: map<int, Trigger>, update: int): map<int, Trigger> {
    if update in log then log[update := log[update].(applied := true)] else log
  }

  ghost function TriggerCommit(s: Sys, result: LookupResult, now: int): Option<Store>
    requires s.work.TriggerLookup?
  {
    match result
    case Found(a) => ApplyFound(s.store, a, s.work.snap, now)
    case NotFound => ApplyNotFound(s.store, s.work.id, s.work.snap)
    case _ => None
  }

  /** Commits the write together with the trigger's status, or leaves everything for a retry. */
  function SettleTrigger(s: Sys, committed: Option<Store>): Sys
    requires s.work.TriggerLookup?
  {
    var idle := s.(work := Idle);
    if committed.None? || s.work.update !in s.log || s.log[s.work.update].applied then idle
    else idle.(store := committed.value, log := MarkApplied(s.log, s.work.update))
  }

  ghost function DoFinishTrigger(s: Sys, result: LookupResult, now: int): Sys
    requires s.work.TriggerLookup?
  {
    if result.AuthenticationFailed? then s.(work := Idle, store := SetAuthFailed(s.store))
    else SettleTrigger(s, TriggerCommit(s, result, now))
  }

  // ----- start-up reconciliation ----------------------------------------------------------

  predicate Converged(outcome: TrustedWrite) {
    outcome == Installed || outcome == Reconciled || outcome == Replaced
  }

  /** Unlike a trigger, the start-up path commits whatever the write did, conflicts included. */
  function DoFinishStartup(s: Sys, result: LookupResult, now: int): Sys
    requires s.work.StartupLookup?
  {
    var idle := s.(work := Idle);
    var snap := s.work.snap;
    match result
    case OtherError => idle
    case AuthenticationFailed => idle.(store := SetAuthFailed(s.store))
    case NotFound =>
      var (next, outcome) := Retire(s.store, s.work.id, snap.trusted.GetOr(0));
      idle.(store := next, startup := if Converged(outcome) then None else s.startup)
    case Found(a) =>
      var (next, outcome) := Reconcile(s.store, a, now, snap.trusted, snap.candidate, snap.guard);
      idle.(store := next, startup := if Converged(outcome) then None else s.startup)
  }

  // ----- claiming -----------------------------------------------------------------------------

  function FloorCandidates(date: int, snapshot: map<ConnId, Candidate>, current: map<ConnId, Candidate>,
                           g: Guard, h: Guard): (r: set<int>)
    ensures date in r
  {
    {date} + GenerationSet(snapshot) + GenerationSet(current)
    + (if g.overflow.Some? then {g.overflow.value} else {})
    + (if h.overflow.Some? then {h.overflow.value} else {})
  }

  /** The claim's floor dominates every generation it has seen. */
  function ClaimFloor(date: int, snapshot: map<ConnId, Candidate>, current: map<ConnId, Candidate>,
                      g: Guard, h: Guard): int
  {
    Maximum(FloorCandidates(date, snapshot, current, g, h))
  }

  /** Promotes only if nothing relevant moved between the snapshot and the transaction. */
  function TryPromote(s: Store, seen: ClaimSnapshot, gate: Gate, current: map<ConnId, Candidate>,
                      result: LookupResult): (r: (Store, bool))
  {
    if seen.gate.state != Ready || gate.state != Ready || seen.gate.revision != gate.revision
       || seen.guard != s.guard || s.guard.overflow.Some?
       || |seen.candidates| != 1 || |current| != 1 || !result.Found?
    then (s, false)
    else
      var a := result.answer;
      if a.id !in current || a.id !in seen.candidates
         || seen.candidates[a.id].revision != current[a.id].revision
         || !a.enabled || a.user != current[a.id].user || a.established != current[a.id].established
      then (s, false)
      else
        var (next, outcome) := PromoteClaimCandidate(s, a, current[a.id].revision, s.guard.revision);
        if outcome == Installed then (next, true) else (s, false)
  }

  function SettleCandidates(s: Store, promoted: bool, user: int, current: map<ConnId, Candidate>): Store {
    if !promoted && s.guard.overflow.None? && 2 <= |current|
    then s.(candidates := CandidatesOf(s.candidates, user))
    else s.(candidates := map[])
  }

  /** Binding, gating, promotion and clean-up, once the table has been pruned. */
  function BindAndSettle(pruned: Store, owner: Owner, seen: ClaimSnapshot, gate: Gate, result: LookupResult): Store
    requires owner.Claimed?
  {
    var current := CandidatesOf(pruned.candidates, owner.user);
    var claimed := pruned.(owner := owner);
    var gated := if result.AuthenticationFailed? then SetAuthFailed(claimed) else claimed;
    var (next, promoted) := TryPromote(gated, seen, gate, current, result);
    SettleCandidates(next, promoted, owner.user, current)
  }

  /** The whole claim transaction; `None` is a rejected or failed claim. */
  ghost function CommitClaim(s: Store, request: ClaimRequest, seen: ClaimSnapshot, result: LookupResult, now: int)
    : Option<Store>
  {
    var before := CandidatesOf(s.candidates, request.user);
    var floor := ClaimFloor(request.date, seen.candidates, before, seen.guard, s.guard);
    var owner := ClaimOwner(s.owner, request.user, request.chat, floor, now);
    if owner.None? then None
    else Some(BindAndSettle(Prune(s, now - CANDIDATE_RETENTION, CANDIDATE_LIMIT), owner.value, seen, s.gate, result))
  }

  ghost function DoFinishClaim(s: Sys, result: LookupResult, now: int): Sys
    requires s.work.ClaimLookup?
  {
    var committed := CommitClaim(s.store, s.work.request, s.work.seen, result, now);
    if committed.None? then s.(work := Idle)
    else s.(work := Idle, store := committed.value, handle := committed.value.owner)
  }

  // ----- remaining steps --------------------------------------------------------------------------

  predicate Recorded(log: map<int, Trigger>, update: int) {
    update in log && !log[update].applied
  }

  predicate Drained(log: map<int, Trigger>) {
    forall u :: u in log ==> log[u].applied
  }

  function DoPublishReady(s: Sys): Sys {
    if s.startup.Some? || s.store.gate.state != Pending || !Drained(s.log) then s
    else
      var next := TransitionReady(s.store, s.store.gate.revision);
      if next.None? then s else s.(store := next.value)
  }

  predicate Authorized(owner: Owner, user: int, chat: int, privateChat: bool) {
    && owner.Claimed?
    && privateChat
    && user == owner.user
    && 0 < chat
    && (owner.source == LegacyFallback || chat == owner.chat)
  }

  /** The source check the update parser makes against the in-memory Owner. */
  predicate ParserAccepts(handle: Owner, ordinary: bool, user: int, chat: int, privateChat: bool) {
    && handle.Claimed?
    && ordinary && privateChat && 0 < chat
    && user == handle.user
    && (handle.source == LegacyFallback || chat == handle.chat)
  }

  predicate ForeignConnectionVisible(s: Store)
  {
    exists id :: id in s.trusted && FindConnection(s, id).Some? && s.owner.Claimed?
      && s.trusted[id].owner != s.owner.user
  }

  ghost function DoOwnerCommand(s: Sys, user: int, chat: int, privateChat: bool): Sys {
    if !Authorized(s.store.owner, user, chat, privateChat) || ForeignConnectionVisible(s.store) then s
    else if s.store.owner.source == LegacyFallback then
      var owner := PromoteChat(s.store.owner, user, chat, FromPrivateMessage);
      if owner.None? then s
      else s.(store := s.store.(owner := owner.value), handle := owner.value)
    else s.(handle := s.store.owner)
  }

  function DoRestart(s: Sys): Sys {
    var store := NormalizeStartup(s.store);
    s.(store := store, work := Idle, handle := store.owner,
       startup := if store.trusted != map[] && AtMostOne(store.trusted) then Some(SoleId(store.trusted)) else None)
  }

  /** The processing worker is single threaded; only the outbox worker and a crash interrupt it. */
  predicate CanStep(s: Sys, step: Step) {
    match step
    case Record(_, id, _) => s.work.Idle? && id != ""
    case BeginTrigger(u) => s.work.Idle? && Recorded(s.log, u) && AtMostOne(s.store.trusted)
    case FinishTrigger(r, _) => s.work.TriggerLookup? && (r.Found? ==> WellFormed(r.answer) && r.answer.id == s.work.id)
    case BeginStartup => s.work.Idle? && s.startup.Some? && AtMostOne(s.store.trusted)
    case FinishStartup(r, _) => s.work.StartupLookup? && (r.Found? ==> WellFormed(r.answer) && r.answer.id == s.work.id)
    case BeginClaim(q, _) => s.work.Idle? && s.store.owner.Unclaimed? && 0 < q.user && 0 < q.chat && 0 < q.date
    case FinishClaim(r, _) =>
      && s.work.ClaimLookup?
      && (!ClaimAsksTelegram(s.work.seen) ==> r == OtherError)
      && (r.Found? ==> WellFormed(r.answer) && r.answer.id in s.work.seen.candidates)
    case PublishReady => s.work.Idle?
    case OwnerCommand(_, _, _) => s.work.Idle?
    case OutboxDisable(_) => true
    case Purge(_, _) => s.work.Idle?
    case Restart => true
  }

  ghost function Next(s: Sys, step: Step): Sys
    requires CanStep(s, step)
  {
    match step
    case Record(u, id, at) =>
      if u in s.log then s
      else s.(store := GateMatching(s.store, id), log := s.log[u := Trigger(id, false, at)])
    case BeginTrigger(u) => s.(work := TriggerLookup(u, s.log[u].id, TakeSnapshot(s.store, s.log[u].id)))
    case FinishTrigger(r, now) => DoFinishTrigger(s, r, now)
    case BeginStartup => s.(work := StartupLookup(s.startup.value, TakeSnapshot(s.store, s.startup.value)))
    case FinishStartup(r, now) => DoFinishStartup(s, r, now)
    case BeginClaim(q, now) => s.(work := ClaimLookup(q, TakeClaimSnapshot(s.store, q.user, now)))
    case FinishClaim(r, now) => DoFinishClaim(s, r, now)
    case PublishReady => DoPublishReady(s)
    case OwnerCommand(user, chat, privateChat) => DoOwnerCommand(s, user, chat, privateChat)
    case OutboxDisable(id) => s.(store := Disable(s.store, id))
    case Purge(now, named) => s.(log := map u | u in s.log && Survives(s.log, u, now, named) :: s.log[u])
    case Restart => DoRestart(s)
  }

  /** The state after the first start on a fresh or a legacy database. */
  ghost predicate Init(s: Sys) {
    && s.store.gate.state == Pending
    && (forall id :: id in s.store.trusted ==>
          && id != ""
          && s.store.trusted[id].established.None?
          && !s.store.trusted[id].confirmed)
    && s.store.candidates == map[]
    && s.store.guard == Guard(None, 0)
    && (exists now :: InitializeOwner(s.store.trusted, now) == Some(s.store.owner))
    && s.work.Idle?
    && s.handle == s.store.owner
    && s.startup == if s.store.trusted != map[] && AtMostOne(s.store.trusted) then Some(SoleId(s.store.trusted))
       else None
  }

  /** Runs are state sequences; the label of every step is recorded beside it. */
  ghost predicate IsRun(states: seq<Sys>, steps: seq<Step>) {
    && |states| == |steps| + 1
    && Init(states[0])
    && forall i :: 0 <= i < |steps| ==> CanStep(states[i], steps[i]) && states[i + 1] == Next(states[i], steps[i])
  }
}
