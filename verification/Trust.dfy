/**
 What each storage operation on the connection-trust tables does to the stored
 state, as a function from the state before to the state after.  The tables are
 the Owner singleton, the trusted `business_connection` rows, the untrusted
 candidates, the overflow guard and the global reconciliation gate.

 Instants and generations are whole seconds.  Rights are the four decoded flags.
 */
module Trust {
  import opened Prelude
  import opened Ranking

  const CANDIDATE_LIMIT: nat := 256
  const CANDIDATE_RETENTION: int := 7 * 24 * 60 * 60

  datatype Rights = Rights(reply: bool, read: bool, deleteSent: bool, deleteAll: bool)

  datatype Trusted = Trusted(
    owner: int, rights: Rights, enabled: bool, established: Option<int>,
    revision: int, confirmed: bool)

  datatype Candidate = Candidate(
    user: int, chat: Option<int>, rights: Rights, enabled: bool,
    established: int, revision: int, observed: int)

  datatype ChatSource = LegacyFallback | FromClaim | FromConnection | FromPrivateMessage

  datatype Owner =
    | Unclaimed
    | Claimed(user: int, chat: int, source: ChatSource, floor: Option<int>, boundAt: int)

  datatype Guard = Guard(overflow: Option<int>, revision: int)

  datatype GateState = Pending | Ready | AuthFailed

  datatype Gate = Gate(state: GateState, revision: int)

  datatype Store = Store(
    owner: Owner, trusted: map<ConnId, Trusted>, candidates: map<ConnId, Candidate>,
    guard: Guard, gate: Gate)

  /** One authoritative answer of Telegram about a connection. */
  datatype Authoritative = Authoritative(
    id: ConnId, user: int, chat: Option<int>, rights: Rights, enabled: bool, established: int)

  datatype CandidateWrite =
    | CandidateInserted | CandidateReconciled
    | CandidateRevisionConflict | CandidateUserConflict | CandidateGenerationConflict
    | CandidateRefused

  /** `StorageFailure` stands for a returned storage error, which rolls the transaction back. */
  datatype TrustedWrite =
    | Installed | Reconciled | Replaced | Ambiguous
    | RevisionConflict | UserConflict | GenerationConflict
    | StorageFailure

  predicate WellFormed(a: Authoritative) {
    && a.id != ""
    && 0 < a.user
    && (a.chat.Some? ==> 0 < a.chat.value)
    && 0 < a.established
  }

  /** No two rows: what `load_single_trusted_connection` insists on. */
  predicate AtMostOne(trusted: map<ConnId, Trusted>) {
    forall a, b :: a in trusted && b in trusted ==> a == b
  }

  function SoleId(trusted: map<ConnId, Trusted>): (id: ConnId)
    requires trusted != map[] && AtMostOne(trusted)
    ensures id in trusted
  {
    assert trusted.Keys != {};
    var k :| k in trusted;
    k
  }

  function OwnerFloor(owner: Owner): Option<int> {
    if owner.Claimed? then owner.floor else None
  }

  function CandidateRevision(s: Store, id: ConnId): Option<int> {
    if id in s.candidates then Some(s.candidates[id].revision) else None
  }

  // ----- overflow guard and Owner floor --------------------------------------

  function RaiseGuard(g: Guard, generation: int): Guard {
    Guard(Raise(g.overflow, generation), g.revision + 1)
  }

  function AdvanceGuardIfActive(g: Guard, generation: int): Guard {
    if g.overflow.Some? then RaiseGuard(g, generation) else g
  }

  function AdvanceFloor(owner: Owner, generation: int): Option<Owner> {
    if generation <= 0 || owner.Unclaimed? then None
    else Some(owner.(floor := Raise(owner.floor, generation)))
  }

  // ----- Owner identity ---------------------------------------------------------

  /** Imports at most one legacy connection as the Owner; more than one is an error. */
  function InitializeOwner(trusted: map<ConnId, Trusted>, now: int): Option<Owner> {
    if trusted == map[] then Some(Unclaimed)
    else if AtMostOne(trusted) && 0 < trusted[SoleId(trusted)].owner then
      var user := trusted[SoleId(trusted)].owner;
      Some(Claimed(user, user, LegacyFallback, None, now))
    else None
  }

  function ClaimOwner(owner: Owner, user: int, chat: int, floor: int, now: int): Option<Owner> {
    if user <= 0 || chat <= 0 || floor <= 0 || owner.Claimed? then None
    else Some(Claimed(user, chat, FromClaim, Some(floor), now))
  }

  /** Only a legacy fallback chat is ever replaced. */
  function PromoteChat(owner: Owner, user: int, chat: int, source: ChatSource): Option<Owner> {
    if user <= 0 || chat <= 0 || (source != FromConnection && source != FromPrivateMessage) then None
    else if owner.Unclaimed? || owner.user != user then None
    else if owner.source != LegacyFallback then Some(owner)
    else Some(owner.(chat := chat, source := source))
  }

  // ----- candidates -----------------------------------------------------------------

  function ObservedCandidate(a: Authoritative, revision: int, now: int): Candidate {
    Candidate(a.user, a.chat, a.rights, a.enabled, a.established, revision, now)
  }

  function ApplyCandidate(s: Store, a: Authoritative, now: int, expected: Option<int>)
    : (r: (Store, CandidateWrite))
  {
    var guarded := s.(guard := AdvanceGuardIfActive(s.guard, a.established));
    if !WellFormed(a) then (s, CandidateRefused)
    else if a.id !in s.candidates then
      if expected.Some? then (guarded, CandidateRevisionConflict)
      else (guarded.(candidates := s.candidates[a.id := ObservedCandidate(a, 0, now)]), CandidateInserted)
    else
      var known := s.candidates[a.id];
      if known.user != a.user then
        (guarded.(candidates := s.candidates - {a.id}), CandidateUserConflict)
      else if known.established != a.established then
        (guarded.(candidates := s.candidates - {a.id}), CandidateGenerationConflict)
      else if expected != Some(known.revision) then (guarded, CandidateRevisionConflict)
      else
        (guarded.(candidates := s.candidates[a.id := ObservedCandidate(a, known.revision + 1, now)]),
         CandidateReconciled)
  }

  function Generations(candidates: map<ConnId, Candidate>): (gen: map<ConnId, int>)
    ensures gen.Keys == candidates.Keys
  {
    map id | id in candidates :: candidates[id].established
  }

  function Fresh(candidates: map<ConnId, Candidate>, cutoff: int): map<ConnId, Candidate> {
    map id | id in candidates && cutoff <= candidates[id].observed :: candidates[id]
  }

  function Restrict(candidates: map<ConnId, Candidate>, ids: set<ConnId>): map<ConnId, Candidate> {
    map id | id in candidates && id in ids :: candidates[id]
  }

  function GenerationSet(candidates: map<ConnId, Candidate>): set<int> {
    set id | id in candidates :: candidates[id].established
  }

  /** Drops expired rows, then the worst-ranked rows above the limit, remembering that it did. */
  ghost function Prune(s: Store, cutoff: int, limit: nat): Store {
    var live := Fresh(s.candidates, cutoff);
    if |live| <= limit then s.(candidates := live)
    else
      SomeGeneration(live);
      s.(candidates := Restrict(live, Top(Generations(live), live.Keys, limit)),
         guard := RaiseGuard(s.guard, Maximum(GenerationSet(live))))
  }

  lemma SomeGeneration(candidates: map<ConnId, Candidate>)
    requires candidates != map[]
    ensures GenerationSet(candidates) != {}
  {
    assert candidates.Keys != {};
    var k :| k in candidates;
    assert candidates[k].established in GenerationSet(candidates);
  }

  // ----- trusted rows -----------------------------------------------------------------

  /** A row for the same Owner under another ID is removed before the row is written. */
  function Upsert(trusted: map<ConnId, Trusted>, id: ConnId, row: Trusted): map<ConnId, Trusted> {
    (map k | k in trusted && (k == id || trusted[k].owner != row.owner) :: trusted[k])[id := row]
  }

  function Install(s: Store, a: Authoritative, revision: int): Store {
    s.(trusted := Upsert(s.trusted, a.id,
                         Trusted(a.user, a.rights, a.enabled, Some(a.established), revision, true)),
       candidates := s.candidates - {a.id})
  }

  /** The generation exceeds the Owner floor, every other row and the overflow guard. */
  predicate AboveEveryFloor(s: Store, id: ConnId, generation: int) {
    && Above(generation, OwnerFloor(s.owner))
    && Above(generation, s.guard.overflow)
    && (forall k :: k in s.trusted && k != id ==> Above(generation, s.trusted[k].established))
    && (forall k :: k in s.candidates && k != id ==> s.candidates[k].established < generation)
  }

  function Intersect(a: Rights, b: Rights): Rights {
    Rights(a.reply && b.reply, a.read && b.read, a.deleteSent && b.deleteSent, a.deleteAll && b.deleteAll)
  }

  function SafetyIntersection(row: Trusted, a: Authoritative): Trusted {
    var enabled := row.enabled && a.enabled;
    var rights := Intersect(row.rights, a.rights);
    if enabled == row.enabled && rights == row.rights then row
    else row.(enabled := enabled, rights := rights, revision := row.revision + 1)
  }

  function GateConflicting(row: Trusted): Trusted {
    row.(enabled := false, confirmed := false, revision := row.revision + 1)
  }

  function ReconcileSame(s: Store, a: Authoritative, expected: Option<int>): (r: (Store, TrustedWrite))
    requires a.id in s.trusted
  {
    var row := s.trusted[a.id];
    if expected != Some(row.revision) then
      (s.(trusted := s.trusted[a.id := SafetyIntersection(row, a)]), RevisionConflict)
    else if row.owner != a.user then
      (s.(trusted := s.trusted[a.id := GateConflicting(row)]), UserConflict)
    else if row.established.Some? && row.established.value != a.established then
      (s.(trusted := s.trusted[a.id := GateConflicting(row)]), GenerationConflict)
    else
      (s.(trusted := s.trusted[a.id :=
            Trusted(a.user, a.rights, a.enabled, Some(a.established), row.revision + 1, true)],
          candidates := s.candidates - {a.id}),
       Reconciled)
  }

  function NextCandidateRevision(candidates: map<ConnId, Candidate>, id: ConnId): int {
    if id in candidates then candidates[id].revision + 1 else 0
  }

  /** Two connections of one generation: neither is trusted, both are kept as candidates. */
  function RetainAmbiguous(s: Store, a: Authoritative, now: int): (r: (Store, TrustedWrite))
    requires s.owner.Claimed? && s.trusted != map[] && AtMostOne(s.trusted)
  {
    var id := SoleId(s.trusted);
    var row := s.trusted[id];
    var demoted := Candidate(row.owner, Some(s.owner.chat), row.rights, row.enabled,
                         a.established, NextCandidateRevision(s.candidates, id), now);
    var first := s.candidates[id := demoted];
    var second := first[a.id := ObservedCandidate(a, NextCandidateRevision(first, a.id), now)];
    var owner := AdvanceFloor(s.owner, a.established);
    if owner.None? then (s, StorageFailure)
    else
      (s.(trusted := map[], candidates := second, owner := owner.value,
          guard := AdvanceGuardIfActive(s.guard, a.established)),
       Ambiguous)
  }

  /** Applies one authoritative answer through the revisions captured before the lookup. */
  function Reconcile(s: Store, a: Authoritative, now: int, expectedTrusted: Option<int>,
                     expectedCandidate: Option<int>, expectedGuard: int): (r: (Store, TrustedWrite))
  {
    var revision := if expectedCandidate.Some? then expectedCandidate.value + 1 else 0;
    if !WellFormed(a) then (s, StorageFailure)
    else if s.guard.revision != expectedGuard then (s, RevisionConflict)
    else if CandidateRevision(s, a.id) != expectedCandidate then (s, RevisionConflict)
    else if s.owner.Unclaimed? || s.owner.user != a.user then (s, UserConflict)
    else if !AtMostOne(s.trusted) then (s, StorageFailure)
    else if s.trusted == map[] then
      if expectedTrusted.Some? then (s, RevisionConflict)
      else if !AboveEveryFloor(s, a.id, a.established) then (s, GenerationConflict)
      else (Install(s, a, revision), Installed)
    else if a.id in s.trusted then ReconcileSame(s, a, expectedTrusted)
    else ReconcileOther(s, a, now, expectedTrusted, revision)
  }

  /** The trusted row carries another ID: replace it, reject the answer or fall back to ambiguity. */
  function ReconcileOther(s: Store, a: Authoritative, now: int, expectedTrusted: Option<int>, revision: int)
    : (r: (Store, TrustedWrite))
    requires s.owner.Claimed? && s.trusted != map[] && AtMostOne(s.trusted)
  {
    var row := s.trusted[SoleId(s.trusted)];
    if expectedTrusted != Some(row.revision) then (s, RevisionConflict)
    else if row.owner != a.user then (s, UserConflict)
    else if row.established.None? then (s, GenerationConflict)
    else if a.established == row.established.value then RetainAmbiguous(s, a, now)
    else if a.established < row.established.value || !AboveEveryFloor(s, a.id, a.established) then
      (s, GenerationConflict)
    else (Install(s, a, revision), Replaced)
  }

  /** The one promotion that happens inside the claim transaction. */
  function PromoteClaimCandidate(s: Store, a: Authoritative, expectedCandidate: int, expectedGuard: int)
    : (r: (Store, TrustedWrite))
  {
    if !WellFormed(a) then (s, StorageFailure)
    else if s.guard.revision != expectedGuard || s.guard.overflow.Some? then (s, RevisionConflict)
    else if s.owner.Unclaimed? || s.owner.user != a.user then (s, UserConflict)
    else if !AtMostOne(s.trusted) then (s, StorageFailure)
    else if s.trusted != map[] then (s, RevisionConflict)
    else if a.id !in s.candidates || s.candidates[a.id].revision != expectedCandidate then (s, RevisionConflict)
    else if s.candidates[a.id].user != a.user then (s, UserConflict)
    else if s.candidates[a.id].established != a.established then (s, GenerationConflict)
    else (Install(s, a, expectedCandidate + 1), Installed)
  }

  /** The floor left behind by a retired row; an undated legacy row counts as old as the binding. */
  function RetiredFloor(owner: Owner, row: Trusted): int
    requires owner.Claimed?
  {
    var generation := row.established.GetOr(Max(owner.boundAt, 1));
    if owner.floor.Some? then Max(owner.floor.value, generation) else generation
  }

  function Retire(s: Store, id: ConnId, expected: int): (r: (Store, TrustedWrite)) {
    if id !in s.trusted then (s.(candidates := s.candidates - {id}), Reconciled)
    else if s.trusted[id].revision != expected then (s, RevisionConflict)
    else if s.owner.Unclaimed? || s.owner.user != s.trusted[id].owner then (s, UserConflict)
    else
      var owner := AdvanceFloor(s.owner, RetiredFloor(s.owner, s.trusted[id]));
      if owner.None? then (s, StorageFailure)
      else (s.(owner := owner.value, trusted := s.trusted - {id}), Reconciled)
  }

  /** The outbox worker's reaction to a rejected Business call. */
  function Disable(s: Store, id: ConnId): Store {
    if id !in s.trusted then s
    else
      var row := s.trusted[id];
      s.(trusted := s.trusted[id := row.(enabled := false, revision := row.revision + 1)])
  }

  /** Recording a lifecycle trigger closes the effect gate of the matching row. */
  function GateMatching(s: Store, id: ConnId): Store {
    if id !in s.trusted || !s.trusted[id].confirmed then s
    else
      var row := s.trusted[id];
      s.(trusted := s.trusted[id := row.(confirmed := false, revision := row.revision + 1)])
  }

  // ----- global gate ---------------------------------------------------------------------

  function Unconfirm(row: Trusted): Trusted {
    if row.confirmed then row.(confirmed := false, revision := row.revision + 1) else row
  }

  function NormalizeStartup(s: Store): Store {
    s.(gate := if s.gate.state == Pending then s.gate else Gate(Pending, s.gate.revision + 1),
       trusted := map id | id in s.trusted :: Unconfirm(s.trusted[id]))
  }

  function Cripple(row: Trusted): Trusted {
    if row.enabled || row.confirmed
    then row.(enabled := false, confirmed := false, revision := row.revision + 1)
    else row
  }

  function SetAuthFailed(s: Store): Store {
    s.(gate := if s.gate.state == AuthFailed then s.gate else Gate(AuthFailed, s.gate.revision + 1),
       trusted := map id | id in s.trusted :: Cripple(s.trusted[id]))
  }

  predicate AllConfirmed(trusted: map<ConnId, Trusted>) {
    forall id :: id in trusted ==> trusted[id].confirmed
  }

  function TransitionReady(s: Store, expected: int): Option<Store> {
    if s.gate != Gate(Pending, expected) || !AtMostOne(s.trusted) || !AllConfirmed(s.trusted) then None
    else Some(s.(gate := Gate(Ready, expected + 1)))
  }

  // ----- reading the state -------------------------------------------------------------------

  /** Only a confirmed row is visible to effects, and only behind an open gate. */
  function FindConnection(s: Store, id: ConnId): Option<Trusted> {
    if s.gate.state == Ready && id in s.trusted && s.trusted[id].confirmed then Some(s.trusted[id]) else None
  }

  datatype RequiredRight = Reply | Read | DeleteAll

  function Permits(rights: Rights, required: RequiredRight): bool {
    match required
    case Reply => rights.reply
    case Read => rights.read
    case DeleteAll => rights.deleteAll
  }

  /** The check made immediately before a Business API call. */
  predicate EnsureRight(s: Store, id: ConnId, required: RequiredRight) {
    var row := FindConnection(s, id);
    row.Some? && row.value.enabled && Permits(row.value.rights, required)
  }

  datatype ConnectionHealth =
    | Missing | CandidateOnly | Enabled | Disabled | RightsIncomplete | AmbiguousConnection

  function CandidateHealth(guard: Guard, retained: map<ConnId, Candidate>): ConnectionHealth {
    if guard.overflow.Some? || 1 < |retained| then AmbiguousConnection
    else if |retained| == 1 then CandidateOnly
    else Missing
  }

  predicate CompleteRights(r: Rights) {
    r.reply && r.read && r.deleteSent && r.deleteAll
  }

  /** Readiness; `None` is the 503 answer. */
  function ClassifyReadiness(s: Store, now: int): Option<(bool, ConnectionHealth)> {
    var retained := Fresh(s.candidates, now - CANDIDATE_RETENTION);
    if s.gate.state != Ready || !AtMostOne(s.trusted) then None
    else if s.owner.Unclaimed? then
      if s.trusted != map[] then None else Some((false, CandidateHealth(s.guard, retained)))
    else if s.trusted != map[] then
      var row := s.trusted[SoleId(s.trusted)];
      if row.owner != s.owner.user || !row.confirmed || retained != map[] || s.guard.overflow.Some? then None
      else if !row.enabled then Some((true, Disabled))
      else if CompleteRights(row.rights) then Some((true, Enabled))
      else Some((true, RightsIncomplete))
    else if exists id :: id in retained && retained[id].user != s.owner.user then None
    else Some((true, CandidateHealth(s.guard, retained)))
  }
}
