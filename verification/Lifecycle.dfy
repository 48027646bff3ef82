/**
 Conversations, challenges, the message ledger and the queued effects: what the
 preparer decides, what the handler does with the decision, and what owner
 commands and retention do to the same rows.
 */
module Lifecycle {
  import opened Prelude
  import opened Batches
  import Arithmetic
  import ArithmeticStore

  const MAX_ATTEMPTS: nat := 3
  const CHALLENGE_SECONDS: int := 120
  const BLOCK_SECONDS: int := 24 * 60 * 60

  // ----- conversation states -------------------------------------------------------------

  datatype ConversationState =
    | New | VerifyPending | VerifiedWaitingOwner | Active | TempSoftBlocked | SpamSoftBlocked

  datatype TransitionEvent =
    | SafeFirstInbound | SpamDetected | VerificationSucceeded | ChallengeExpired | VerificationExhausted
    | ManualOwnerReply | AllOwnerRepliesDeleted | TempBlockExpired | OwnerUnblocked | OwnerInitiatedMessage

  function Transition(state: ConversationState, event: TransitionEvent): Option<ConversationState> {
    match (state, event)
    case (New, SafeFirstInbound) => Some(VerifyPending)
    case (New, SpamDetected) => Some(SpamSoftBlocked)
    case (VerifyPending, SpamDetected) => Some(SpamSoftBlocked)
    case (VerifiedWaitingOwner, SpamDetected) => Some(SpamSoftBlocked)
    case (New, ManualOwnerReply) => Some(Active)
    case (VerifyPending, ManualOwnerReply) => Some(Active)
    case (VerifiedWaitingOwner, ManualOwnerReply) => Some(Active)
    case (TempSoftBlocked, ManualOwnerReply) => Some(Active)
    case (VerifyPending, VerificationSucceeded) => Some(VerifiedWaitingOwner)
    case (VerifyPending, ChallengeExpired) => Some(New)
    case (Active, AllOwnerRepliesDeleted) => Some(New)
    case (TempSoftBlocked, TempBlockExpired) => Some(New)
    case (SpamSoftBlocked, OwnerUnblocked) => Some(New)
    case (VerifyPending, VerificationExhausted) => Some(TempSoftBlocked)
    case (SpamSoftBlocked, OwnerInitiatedMessage) => Some(Active)
    case _ => None
  }

  predicate Blocked(state: ConversationState) {
    state == TempSoftBlocked || state == SpamSoftBlocked
  }

  // ----- rows --------------------------------------------------------------------------------

  datatype Key = Key(conn: string, chat: int)

  datatype Reason = BecauseSpam | BecauseExhausted

  datatype Conversation = Conversation(
    state: ConversationState, updatedAt: int, blockExpires: Option<int>, blockReason: Option<Reason>,
    blockCount: nat, version: nat)

  datatype Delivery = DeliveryPending | DeliverySent | DeliveryUncertain | DeliveryClosed

  datatype Challenge = Challenge(
    key: Key, keyVersion: int, expiresAt: int, attempts: nat, prompt: Option<int>, delivery: Delivery, open: bool)

  datatype Message = Message(inbound: bool, ownerReply: bool, sentAt: int, deleted: bool, eligible: bool)

  datatype EditStatus = EditSuccess | EditIncorrect(remaining: int) | EditExhausted | EditExhaustedDryRun | EditExpired

  datatype Payload =
    | SendChallenge(challenge: int)
    | EditChallenge(challenge: int, status: EditStatus)
    | ReadMessage(message: int)
    | DeleteMessages(messages: seq<int>)
    | OwnerAlert
    | ProposedSpam
    | ProposedBlock

  datatype ActionName = NSend | NEdit | NRead | NDelete | NOwner | NProposed

  function NameOf(p: Payload): ActionName {
    match p
    case SendChallenge(_) => NSend
    case EditChallenge(_, _) => NEdit
    case ReadMessage(_) => NRead
    case DeleteMessages(_) => NDelete
    case OwnerAlert => NOwner
    case ProposedSpam => NProposed
    case ProposedBlock => NProposed
  }

  /** The UNIQUE idempotency key of a queued action. */
  datatype Idempotency =
    | ByUpdate(update: int, name: ActionName, key: Key, batch: nat)
    | ByRetention(challenge: int)

  datatype Queued = Queued(key: Key, payload: Payload, unfinished: bool)

  datatype Visible = Visible(enabled: bool, reply: bool, read: bool, deleteAll: bool)

  /** `rows` are the stored connections, `visible` those that effects may currently use. */
  datatype Records = Records(
    rows: set<string>, visible: map<string, Visible>, destructive: Option<bool>,
    conversations: map<Key, Conversation>, challenges: map<int, Challenge>, nextChallenge: int)

  datatype Life = Life(records: Records, ledger: map<(Key, int), Message>, outbox: map<Idempotency, Queued>)

  predicate OpenFor(r: Records, key: Key, id: int) {
    id in r.challenges && r.challenges[id].open && r.challenges[id].key == key
  }

  predicate HasOpen(r: Records, key: Key) {
    exists id :: id in r.challenges && OpenFor(r, key, id)
  }

  // ----- the preparer -----------------------------------------------------------------------------

  datatype Verdict = Allow | Suspicious | Spam | DetectorFailed

  datatype RawKind = Inbound | EditedInbound | ManualOwnerMessage | BotMessage | ImplicitOwnerMessage | Deletion

  /** One business update; the detector's and the verifier's opinions of its text are inputs. */
  datatype Raw = Raw(
    update: int, kind: RawKind, key: Key, message: int, at: int, now: int,
    verdict: Verdict, answer: Arithmetic.AnswerKind, deleted: seq<int>)

  datatype Outcome =
    | StartChallenge(keyVersion: int, expiresAt: int)
    | Retain
    | Correct(challenge: int)
    | Incorrect(challenge: int, exhausted: bool, remaining: int, blockExpires: Option<int>)
    | Expired(challenge: int)
    | SpamOutcome

  datatype Prepared =
    | InboundAction(verdict: Verdict, outcome: Outcome, dryRunSpam: bool)
    | ActiveInbound
    | BlockedInbound
    | BlockedFailOpen
    | ManualOwner
    | ServiceMessage
    | MessagesDeleted(ids: seq<int>)
    | Ignore

  datatype PrepareError = NoActiveChallenge | KeyVersionMismatch | UncheckedState

  /** The verifier's key version and the configured default of the destructive switch. */
  datatype Config = Config(keyVersion: int, destructiveDefault: bool)

  function StateOf(r: Records, key: Key): ConversationState {
    if key in r.conversations then r.conversations[key].state else New
  }

  predicate DestructiveMode(r: Records, c: Config) {
    r.destructive.GetOr(c.destructiveDefault)
  }

  predicate CanReply(r: Records, key: Key) {
    key.conn in r.visible && r.visible[key.conn].enabled && r.visible[key.conn].reply
  }

  predicate CanDestroy(r: Records, key: Key) {
    && key.conn in r.visible && r.visible[key.conn].enabled
    && r.visible[key.conn].read && r.visible[key.conn].deleteAll
  }

  function ActiveChallenge(r: Records, key: Key): (id: Option<int>)
    ensures id.Some? ==> OpenFor(r, key, id.value)
    ensures id.None? ==> !HasOpen(r, key)
  {
    if !HasOpen(r, key) then None
    else Some(FirstOpen(r, key))
  }

  /** The open challenge of a conversation; the partial unique index leaves at most one. */
  function FirstOpen(r: Records, key: Key): (id: int)
    requires HasOpen(r, key)
    ensures OpenFor(r, key, id)
  {
    var ids := set id | id in r.challenges && OpenFor(r, key, id);
    Inhabited(r, key, ids);
    Minimum(ids)
  }

  lemma Inhabited(r: Records, key: Key, ids: set<int>)
    requires HasOpen(r, key) && ids == set id | id in r.challenges && OpenFor(r, key, id)
    ensures ids != {}
  {
    var id :| id in r.challenges && OpenFor(r, key, id);
    assert id in ids;
  }

  function SafeOutcome(r: Records, c: Config, raw: Raw, destructive: bool): Result<Outcome, PrepareError> {
    match StateOf(r, raw.key)
    case New => Ok(StartChallenge(c.keyVersion, raw.now + CHALLENGE_SECONDS))
    case VerifyPending =>
      var active := ActiveChallenge(r, raw.key);
      if active.None? then Err(NoActiveChallenge)
      else
        var id := active.value;
        var challenge := r.challenges[id];
        if challenge.expiresAt <= raw.now then Ok(Expired(id))
        else if raw.kind == EditedInbound then Ok(Retain)
        else if challenge.keyVersion != c.keyVersion then Err(KeyVersionMismatch)
        else if raw.answer == Arithmetic.AnswerKind.Correct then Ok(Correct(id))
        else
          var used := challenge.attempts + 1;
          var exhausted := MAX_ATTEMPTS <= used;
          Ok(Incorrect(id, exhausted, Max(MAX_ATTEMPTS - used, 0),
                       if exhausted && destructive then Some(raw.now + BLOCK_SECONDS) else None))
    case VerifiedWaitingOwner => Ok(Retain)
    case _ => Err(UncheckedState)
  }

  function PrepareInbound(r: Records, c: Config, raw: Raw): Result<Prepared, PrepareError> {
    var state := StateOf(r, raw.key);
    if state == Active then Ok(ActiveInbound)
    else
      var destructive := DestructiveMode(r, c) && CanDestroy(r, raw.key);
      if Blocked(state) then Ok(if destructive then BlockedInbound else BlockedFailOpen)
      else
        var isSpam := raw.verdict == Spam;
        if isSpam && destructive then Ok(InboundAction(raw.verdict, SpamOutcome, false))
        else if (isSpam && state == VerifyPending)
                || ((state == New || state == VerifyPending) && !CanReply(r, raw.key))
        then Ok(InboundAction(raw.verdict, Retain, isSpam))
        else
          var outcome := SafeOutcome(r, c, raw, destructive);
          if outcome.Err? then Err(outcome.error) else Ok(InboundAction(raw.verdict, outcome.value, isSpam))
  }

  function Prepare(r: Records, c: Config, raw: Raw): Result<Prepared, PrepareError> {
    if raw.key.conn !in r.visible then Ok(Ignore)
    else
      match raw.kind
      case Inbound => PrepareInbound(r, c, raw)
      case EditedInbound => PrepareInbound(r, c, raw)
      case ManualOwnerMessage => Ok(ManualOwner)
      case BotMessage => Ok(ServiceMessage)
      case ImplicitOwnerMessage => Ok(ServiceMessage)
      case Deletion => Ok(MessagesDeleted(raw.deleted))
  }

  // ----- the handler: rows -------------------------------------------------------------------------------

  const FRESH_CONVERSATION := Conversation(New, 0, None, None, 0, 0)

  /** A new conversation needs its connection row: the foreign key is enforced. */
  function GetOrCreate(r: Records, key: Key, at: int): Option<Records> {
    if key in r.conversations then Some(r)
    else if key.conn !in r.rows then None
    else Some(r.(conversations := r.conversations[key := FRESH_CONVERSATION.(updatedAt := at)]))
  }

  function RecordMessage(s: Life, key: Key, id: int, m: Message): Life {
    if (key, id) in s.ledger then s else s.(ledger := s.ledger[(key, id) := m])
  }

  function Save(r: Records, key: Key, c: Conversation): Records {
    r.(conversations := r.conversations[key := c.(version := c.version + 1)])
  }

  function Enqueue(s: Life, update: int, key: Key, batch: nat, p: Payload): Life {
    EnqueueAs(s, ByUpdate(update, NameOf(p), key, batch), key, p)
  }

  /** A second action under the same idempotency key is ignored. */
  function EnqueueAs(s: Life, id: Idempotency, key: Key, p: Payload): Life {
    if id in s.outbox then s else s.(outbox := s.outbox[id := Queued(key, p, true)])
  }

  function Closed(c: Challenge): Challenge {
    c.(open := false, delivery := DeliveryClosed)
  }

  function CloseChallenge(r: Records, id: int): Records {
    if id in r.challenges && r.challenges[id].open
    then r.(challenges := r.challenges[id := Closed(r.challenges[id])])
    else r
  }

  function CloseActive(r: Records, key: Key): Records {
    r.(challenges := map id | id in r.challenges ::
         if OpenFor(r, key, id) then Closed(r.challenges[id]) else r.challenges[id])
  }

  /** Fails on a closed, exhausted or missing challenge. */
  function IncrementAttempts(r: Records, id: int): Option<Records> {
    if id in r.challenges && r.challenges[id].open && r.challenges[id].attempts < MAX_ATTEMPTS
    then Some(r.(challenges := r.challenges[id := r.challenges[id].(attempts := r.challenges[id].attempts + 1)]))
    else None
  }

  /** Fails on a second open challenge for the conversation. */
  function CreateChallenge(r: Records, key: Key, keyVersion: int, expiresAt: int): Option<Records> {
    if HasOpen(r, key) then None
    else
      var asked := Challenge(key, keyVersion, expiresAt, 0, None, DeliveryPending, true);
      Some(r.(challenges := r.challenges[r.nextChallenge := asked], nextChallenge := r.nextChallenge + 1))
  }

  function EligibleIds(s: Life, key: Key): set<int> {
    set k | k in s.ledger && k.0 == key && s.ledger[k].eligible && !s.ledger[k].deleted :: k.1
  }

  function EnqueueBatches(s: Life, update: int, key: Key, batches: seq<seq<int>>, from: nat): Life
    decreases |batches|
  {
    if batches == [] then s
    else EnqueueBatches(Enqueue(s, update, key, from, DeleteMessages(batches[0])), update, key, batches[1..], from + 1)
  }

  function EnqueueDeletes(s: Life, update: int, key: Key): Life {
    EnqueueBatches(s, update, key, Split(Sorted(EligibleIds(s, key))), 0)
  }

  // ----- the handler: outcomes ----------------------------------------------------------------------------

  /** The conversation is edited in memory and saved at the end of the event. */
  datatype Edit = Edit(life: Life, conversation: Conversation)

  function Move(c: Conversation, event: TransitionEvent, at: int): Option<Conversation> {
    var next := Transition(c.state, event);
    if next.None? then None else Some(c.(state := next.value, updatedAt := at))
  }

  function ApplyStart(s: Life, raw: Raw, c: Conversation, o: Outcome): Option<Edit>
    requires o.StartChallenge?
  {
    var created := CreateChallenge(s.records, raw.key, o.keyVersion, o.expiresAt);
    var moved := Move(c, SafeFirstInbound, raw.at);
    if created.None? || moved.None? then None
    else
      Some(Edit(Enqueue(s.(records := created.value), raw.update, raw.key, 0, SendChallenge(s.records.nextChallenge)),
                moved.value))
  }

  /** Whether the challenge was still open is not checked. */
  function ApplyClosing(s: Life, raw: Raw, c: Conversation, id: int, event: TransitionEvent, status: EditStatus)
    : Option<Edit>
  {
    var moved := Move(c, event, raw.at);
    if moved.None? then None
    else
      Some(Edit(Enqueue(s.(records := CloseChallenge(s.records, id)), raw.update, raw.key, 0,
        EditChallenge(id, status)),
                moved.value))
  }

  function ApplyIncorrect(s: Life, raw: Raw, c: Conversation, o: Outcome): Option<Edit>
    requires o.Incorrect?
  {
    var counted := IncrementAttempts(s.records, o.challenge);
    if counted.None? then None
    else if !o.exhausted then
      Some(Edit(Enqueue(s.(records := counted.value), raw.update, raw.key, 0,
                        EditChallenge(o.challenge, EditIncorrect(o.remaining))), c))
    else ApplyExhausted(s.(records := CloseChallenge(counted.value, o.challenge)), raw, c, o)
  }

  /** Three failures block for a day, or in dry-run only propose to. */
  function ApplyExhausted(s: Life, raw: Raw, c: Conversation, o: Outcome): Option<Edit>
    requires o.Incorrect?
  {
    if o.blockExpires.Some? then
      var moved := Move(c, VerificationExhausted, raw.at);
      if moved.None? then None
      else
        Some(Edit(Enqueue(s, raw.update, raw.key, 0, EditChallenge(o.challenge, EditExhausted)),
                  moved.value.(blockExpires := o.blockExpires, blockReason := Some(BecauseExhausted),
                               blockCount := moved.value.blockCount + 1)))
    else
      var moved := Move(c, ChallengeExpired, raw.at);
      if moved.None? then None
      else
        var proposed := Enqueue(s, raw.update, raw.key, 1, ProposedBlock);
        Some(Edit(Enqueue(proposed, raw.update, raw.key, 0, EditChallenge(o.challenge, EditExhaustedDryRun)),
          moved.value))
  }

  function ApplySpam(s: Life, raw: Raw, c: Conversation): Option<Edit> {
    var moved := Move(c, SpamDetected, raw.at);
    if moved.None? then None
    else
      Some(Edit(Purge(s.(records := CloseActive(s.records, raw.key)), raw),
                moved.value.(blockReason := Some(BecauseSpam), blockCount := moved.value.blockCount + 1)))
  }

  /** Marks the message read and queues the deletion of everything eligible. */
  function Purge(s: Life, raw: Raw): Life {
    EnqueueDeletes(Enqueue(s, raw.update, raw.key, 0, ReadMessage(raw.message)), raw.update, raw.key)
  }

  function ApplyOutcome(s: Life, raw: Raw, c: Conversation, o: Outcome): Option<Edit> {
    match o
    case StartChallenge(_, _) => ApplyStart(s, raw, c, o)
    case Retain => Some(Edit(s, c))
    case Correct(id) => ApplyClosing(s, raw, c, id, VerificationSucceeded, EditSuccess)
    case Incorrect(_, _, _, _) => ApplyIncorrect(s, raw, c, o)
    case Expired(id) => ApplyClosing(s, raw, c, id, ChallengeExpired, EditExpired)
    case SpamOutcome => ApplySpam(s, raw, c)
  }

  function RecordInbound(s: Life, raw: Raw): Life {
    RecordMessage(s, raw.key, raw.message, Message(true, false, raw.at, false, true))
  }

  /** Ledger row, dry-run proposal and detector alert come before the outcome. */
  function Annotate(s: Life, raw: Raw, a: Prepared): Life
    requires a.InboundAction?
  {
    var recorded := RecordInbound(s, raw);
    var proposed := if a.dryRunSpam then Enqueue(recorded, raw.update, raw.key, 0, ProposedSpam) else recorded;
    if a.verdict == DetectorFailed then Enqueue(proposed, raw.update, raw.key, 0, OwnerAlert) else proposed
  }

  /** The row is written only if its state moved or its timestamp is stale. */
  function SaveEdit(e: Edit, raw: Raw, before: Conversation): Life {
    if e.conversation.state != before.state || e.conversation.updatedAt != raw.at
    then e.life.(records := Save(e.life.records, raw.key, e.conversation.(updatedAt := raw.at)))
    else e.life
  }

  function ApplyInbound(s: Life, raw: Raw, a: Prepared): Option<Life>
    requires a.InboundAction?
  {
    var created := GetOrCreate(s.records, raw.key, raw.at);
    if created.None? then None
    else
      var c := created.value.conversations[raw.key];
      var edit := ApplyOutcome(Annotate(s.(records := created.value), raw, a), raw, c, a.outcome);
      if edit.None? then None else Some(SaveEdit(edit.value, raw, c))
  }

  function Touch(r: Records, key: Key, at: int): Records
    requires key in r.conversations
  {
    Save(r, key, r.conversations[key].(updatedAt := at))
  }

  function ApplyBlocked(s: Life, raw: Raw, destructive: bool): Option<Life> {
    var created := GetOrCreate(s.records, raw.key, raw.at);
    if created.None? then None
    else
      var recorded := RecordInbound(s.(records := Touch(created.value, raw.key, raw.at)), raw);
      Some(if destructive then Purge(recorded, raw) else recorded)
  }

  function ApplyManual(s: Life, raw: Raw): Option<Life> {
    var created := GetOrCreate(s.records, raw.key, raw.at);
    if created.None? then None
    else
      var c := created.value.conversations[raw.key];
      var event := if c.state == SpamSoftBlocked then OwnerInitiatedMessage else ManualOwnerReply;
      var moved := if c.state == Active then Some(c) else Move(c, event, raw.at);
      if moved.None? then None
      else
        var cleared := moved.value.(blockExpires := None, blockReason := None, updatedAt := raw.at);
        var saved := Save(CloseActive(created.value, raw.key), raw.key, cleared);
        Some(RecordMessage(s.(records := saved), raw.key, raw.message, Message(false, true, raw.at, false, true)))
  }

  function ApplyService(s: Life, raw: Raw): Option<Life> {
    var created := GetOrCreate(s.records, raw.key, raw.at);
    if created.None? then None
    else Some(RecordMessage(s.(records := created.value), raw.key, raw.message,
      Message(false, false, raw.at, false, true)))
  }

  function MarkDeleted(s: Life, key: Key, ids: seq<int>): Life {
    s.(ledger := map k | k in s.ledger ::
         if k.0 == key && k.1 in ids then s.ledger[k].(deleted := true) else s.ledger[k])
  }

  predicate OwnerReplied(s: Life, key: Key) {
    exists k :: k in s.ledger && k.0 == key && s.ledger[k].ownerReply && !s.ledger[k].deleted
  }

  function ApplyDeletion(s: Life, raw: Raw, ids: seq<int>): Option<Life> {
    var created := GetOrCreate(s.records, raw.key, raw.at);
    if created.None? then None
    else
      var marked := MarkDeleted(s.(records := created.value), raw.key, ids);
      var c := created.value.conversations[raw.key];
      if c.state == Active && !OwnerReplied(marked, raw.key) then
        var moved := Move(c, AllOwnerRepliesDeleted, raw.at);
        if moved.None? then None else Some(marked.(records := Save(created.value, raw.key, moved.value)))
      else Some(marked)
  }

  /** One event in one transaction; `None` is an error, which rolls everything back. */
  function Apply(s: Life, raw: Raw, a: Prepared): Option<Life> {
    match a
    case InboundAction(_, _, _) => ApplyInbound(s, raw, a)
    case ActiveInbound => Some(s)
    case Ignore => Some(s)
    case BlockedInbound => ApplyBlocked(s, raw, true)
    case BlockedFailOpen => ApplyBlocked(s, raw, false)
    case ManualOwner => ApplyManual(s, raw)
    case ServiceMessage => ApplyService(s, raw)
    case MessagesDeleted(ids) => ApplyDeletion(s, raw, ids)
  }

  // ----- retention and owner commands --------------------------------------------------------------------

  predicate Due(c: Challenge, now: int) {
    c.open && c.expiresAt <= now
  }

  predicate DueFor(r: Records, key: Key, now: int) {
    exists id :: id in r.challenges && r.challenges[id].key == key && Due(r.challenges[id], now)
  }

  predicate PromptQueued(s: Life, id: int) {
    exists q :: q in s.outbox && s.outbox[q].payload == SendChallenge(id)
  }

  function ExpireConversation(r: Records, key: Key, now: int): Conversation
    requires key in r.conversations
  {
    var c := r.conversations[key];
    if c.state == VerifyPending && DueFor(r, key, now) then
      c.(state := New, updatedAt := now, version := c.version + 1)
    else if c.state == TempSoftBlocked && c.blockExpires.Some? && c.blockExpires.value <= now then
      c.(state := New, blockExpires := None, blockReason := None, updatedAt := now, version := c.version + 1)
    else c
  }

  function ExpireRecords(r: Records, now: int): Records {
    r.(challenges := map id | id in r.challenges ::
         if Due(r.challenges[id], now) then Closed(r.challenges[id]) else r.challenges[id],
       conversations := map key | key in r.conversations :: ExpireConversation(r, key, now))
  }

  function ExpiryEdits(s: Life, now: int): map<Idempotency, Queued> {
    var challenges := s.records.challenges;
    map id | id in challenges && Due(challenges[id], now) && challenges[id].prompt.Some?
             && PromptQueued(s, id) && ByRetention(id) !in s.outbox
      :: ByRetention(id) := Queued(challenges[id].key, EditChallenge(id, EditExpired), true)
  }

  /** Closes due challenges and lifts due temporary blocks in one transaction. */
  function ExpireDue(s: Life, now: int): Life {
    s.(records := ExpireRecords(s.records, now), outbox := s.outbox + ExpiryEdits(s, now))
  }

  /** The messages named by unfinished delete requests. */
  function ProtectedIds(outbox: map<Idempotency, Queued>): set<(Key, int)> {
    set q, m | q in outbox && outbox[q].unfinished && outbox[q].payload.DeleteMessages?
      && m in outbox[q].payload.messages
      :: (outbox[q].key, m)
  }

  function Purgeable(ledger: map<(Key, int), Message>, outbox: map<Idempotency, Queued>, cutoff: int): set<(Key, int)> {
    set k | k in ledger && ledger[k].inbound && !ledger[k].ownerReply && ledger[k].sentAt <= cutoff
            && k !in ProtectedIds(outbox)
  }

  function Prompts(r: Records, key: Key): set<int> {
    set id | id in r.challenges && r.challenges[id].key == key && r.challenges[id].prompt.Some?
      :: r.challenges[id].prompt.value
  }

  function Forget(r: Records, key: Key, now: int): Records
    requires key in r.conversations
  {
    r.(challenges := map id | id in r.challenges && r.challenges[id].key != key :: r.challenges[id],
       conversations := r.conversations[key := Conversation(New, now, None, None, 0, r.conversations[key].version + 1)])
  }

  function ClearConversation(s: Life, key: Key, now: int): Life
    requires key in s.records.conversations
  {
    Life(Forget(s.records, key, now),
         map k | k in s.ledger && k.0 != key :: s.ledger[k],
         map q | q in s.outbox && !(s.outbox[q].key == key && s.outbox[q].unfinished) :: s.outbox[q])
  }

  /** Forgets a conversation and queues the deletion of everything known about it. */
  function Reset(s: Life, update: int, key: Key, now: int): Option<Life> {
    if key.conn !in s.records.visible || key !in s.records.conversations then None
    else
      var ids := Sorted(EligibleIds(s, key) + Prompts(s.records, key));
      Some(EnqueueBatches(ClearConversation(s, key, now), update, key, Split(ids), 0))
  }

  function Unblock(r: Records, key: Key, now: int): Option<Records> {
    if key.conn !in r.visible || key !in r.conversations || !Blocked(r.conversations[key].state) then None
    else
      var c := r.conversations[key];
      var lifted := c.(state := New, blockExpires := None, blockReason := None, updatedAt := now,
        version := c.version + 1);
      Some(CloseActive(r.(conversations := r.conversations[key := lifted]), key))
  }

  predicate FullRights(v: Visible, deleteSent: bool) {
    v.enabled && v.reply && v.read && v.deleteAll && deleteSent
  }

  /** Leaving dry-run needs a visible connection with every right. */
  function SetDryRun(r: Records, conn: string, deleteSent: bool, dryRun: bool): Option<Records> {
    if !dryRun && (conn !in r.visible || !FullRights(r.visible[conn], deleteSent)) then None
    else Some(r.(destructive := Some(!dryRun)))
  }

  /** An open challenge the upgrade can leave or sign anew. */
  predicate Upgradable(challenge: Challenge, canonical: bool) {
    || challenge.keyVersion == ArithmeticStore.CURRENT_KEY_VERSION
    || (challenge.keyVersion == ArithmeticStore.LEGACY_KEY_VERSION && canonical)
  }

  /**
   At start-up every open challenge is signed anew under the current key; the
   upgrade fails on an unknown key version or an expression that is not canonical.
   */
  function UpgradeKeys(r: Records, c: Config, canonical: set<int>): Option<Records> {
    if c.keyVersion != ArithmeticStore.CURRENT_KEY_VERSION then None
    else if exists id :: id in r.challenges && r.challenges[id].open && !Upgradable(r.challenges[id], id in canonical)
    then None
    else Some(r.(challenges := map id | id in r.challenges ::
           if r.challenges[id].open then r.challenges[id].(keyVersion := c.keyVersion) else r.challenges[id]))
  }

  // ----- what other workers do to these rows ---------------------------------------------------------------

  /** The outbox worker records the delivery of a prompt without reopening the challenge. */
  function PromptDelivered(r: Records, id: int, message: Option<int>): Records {
    if id !in r.challenges then r
    else
      var c := r.challenges[id];
      var delivery := if !c.open then c.delivery else if message.Some? then DeliverySent else DeliveryUncertain;
      var prompt := if message.Some? then message else c.prompt;
      r.(challenges := r.challenges[id := c.(delivery := delivery, prompt := prompt)])
  }

  /** Deleting a connection cascades to everything stored under it. */
  function DropConnection(r: Records, conn: string): Records {
    r.(rows := r.rows - {conn}, visible := r.visible - {conn},
       conversations := map k | k in r.conversations && k.conn != conn :: r.conversations[k],
       challenges := map id | id in r.challenges && r.challenges[id].key.conn != conn :: r.challenges[id])
  }
}
