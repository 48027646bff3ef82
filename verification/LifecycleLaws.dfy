/**
 What every applied decision leaves behind, field by field: the conversation,
 its challenges, the ledger and the queue.
 */
module LifecycleLaws {
  import opened Prelude
  import opened Batches
  import opened Lifecycle
  import opened LifecycleInvariant
  import opened LifecycleEffects

  // ----- the conversation ------------------------------------------------------------------

  /** The stored conversation, or the one that is created for a first event. */
  function Stored(r: Records, raw: Raw): Conversation {
    if raw.key in r.conversations then r.conversations[raw.key] else Conversation(New, raw.at, None, None, 0, 0)
  }

  predicate Kept(before: Conversation, after: Conversation) {
    after.state == before.state && after.blockExpires == before.blockExpires
    && after.blockReason == before.blockReason && after.blockCount == before.blockCount
  }

  /** Only the state has moved. */
  predicate Moved(before: Conversation, after: Conversation, from: ConversationState, to: ConversationState) {
    before.state == from && Kept(before.(state := to), after)
  }

  predicate BlockedFrom(before: Conversation, after: Conversation, to: ConversationState, why: Reason,
                        until: Option<int>)
  {
    Kept(Conversation(to, 0, until, Some(why), before.blockCount + 1, 0), after)
  }

  predicate FollowsOutcome(before: Conversation, after: Conversation, o: Outcome) {
    match o
    case StartChallenge(_, _) => Moved(before, after, New, VerifyPending)
    case Retain => Kept(before, after)
    case Correct(_) => Moved(before, after, VerifyPending, VerifiedWaitingOwner)
    case Expired(_) => Moved(before, after, VerifyPending, New)
    case Incorrect(_, exhausted, _, until) =>
      if !exhausted then Kept(before, after)
      else && before.state == VerifyPending
           && if until.Some? then BlockedFrom(before, after, TempSoftBlocked, BecauseExhausted, until)
              else Moved(before, after, VerifyPending, New)
    case SpamOutcome =>
      && before.state in {New, VerifyPending, VerifiedWaitingOwner}
      && BlockedFrom(before, after, SpamSoftBlocked, BecauseSpam, before.blockExpires)
  }

  /** Written at the time of the event; the version counts the writes. */
  predicate Written(before: Conversation, after: Conversation, raw: Raw, changed: bool) {
    after.updatedAt == (if changed then raw.at else before.updatedAt)
    && after.version == before.version + (if changed then 1 else 0)
  }

  lemma OutcomeConversation(s: Life, raw: Raw, c: Conversation, o: Outcome)
    requires ApplyOutcome(s, raw, c, o).Some?
    ensures var e := ApplyOutcome(s, raw, c, o).value;
            && FollowsOutcome(c, e.conversation, o)
            && e.conversation.version == c.version
            && (e.conversation.state != c.state || e.conversation.updatedAt == c.updatedAt)
  {
  }

  lemma SavedConversation(e: Edit, raw: Raw, c: Conversation, r: Records)
    requires e.life.records.conversations == r.conversations && raw.key in r.conversations
    requires e.conversation.version == c.version && r.conversations[raw.key] == c
    requires e.conversation.state != c.state || e.conversation.updatedAt == c.updatedAt
    requires e.conversation.state == c.state ==> Kept(c, e.conversation)
    ensures var t := SaveEdit(e, raw, c).records;
            && t.conversations == r.conversations[raw.key := t.conversations[raw.key]]
            && Kept(e.conversation, t.conversations[raw.key])
            && Written(c, t.conversations[raw.key], raw, e.conversation.state != c.state || c.updatedAt != raw.at)
  {
  }

  lemma SameFollows(c: Conversation, d: Conversation, e: Conversation, o: Outcome)
    requires FollowsOutcome(c, d, o) && Kept(d, e)
    ensures FollowsOutcome(c, e, o)
  {
  }

  lemma InboundConversation(s: Life, raw: Raw, a: Prepared)
    requires a.InboundAction? && ApplyInbound(s, raw, a).Some?
    ensures var before, t := Stored(s.records, raw), ApplyInbound(s, raw, a).value.records;
            && raw.key in t.conversations
            && t.conversations == s.records.conversations[raw.key := t.conversations[raw.key]]
            && FollowsOutcome(before, t.conversations[raw.key], a.outcome)
            && Written(before, t.conversations[raw.key], raw,
                       t.conversations[raw.key].state != before.state || before.updatedAt != raw.at)
  {
    var created := GetOrCreate(s.records, raw.key, raw.at).value;
    var c := created.conversations[raw.key];
    var annotated := Annotate(s.(records := created), raw, a);
    assert annotated.records == created;
    OutcomeConversation(annotated, raw, c, a.outcome);
    OutcomeBlocks(annotated, raw, c, a.outcome);
    var e := ApplyOutcome(annotated, raw, c, a.outcome).value;
    if e.conversation.state == c.state { UnmovedKept(c, e.conversation, a.outcome); }
    SavedConversation(e, raw, c, created);
    SameFollows(c, e.conversation, SaveEdit(e, raw, c).records.conversations[raw.key], a.outcome);
  }

  lemma UnmovedKept(c: Conversation, d: Conversation, o: Outcome)
    requires FollowsOutcome(c, d, o) && d.state == c.state
    ensures Kept(c, d)
  {
  }

  predicate OwnerReplyLeft(s: Life, key: Key, deleted: seq<int>) {
    exists k :: k in s.ledger && k.0 == key && s.ledger[k].ownerReply && !s.ledger[k].deleted && k.1 !in deleted
  }

  /** What the action makes of its conversation. */
  predicate ConversationFollows(s: Life, before: Conversation, after: Conversation, raw: Raw, a: Prepared) {
    match a
    case InboundAction(_, o, _) =>
      && FollowsOutcome(before, after, o)
      && Written(before, after, raw, after.state != before.state || before.updatedAt != raw.at)
    case BlockedInbound => Kept(before, after) && Written(before, after, raw, true)
    case BlockedFailOpen => Kept(before, after) && Written(before, after, raw, true)
    case ManualOwner =>
      && Kept(before.(state := Active, blockExpires := None, blockReason := None), after)
      && Written(before, after, raw, true)
    case MessagesDeleted(ids) =>
      var lost := before.state == Active && !OwnerReplyLeft(s, raw.key, ids);
      Kept(if lost then before.(state := New) else before, after) && Written(before, after, raw, lost)
    case _ => after == before
  }

  lemma BlockedConversation(s: Life, raw: Raw, destructive: bool)
    requires ApplyBlocked(s, raw, destructive).Some?
    ensures var before, t := Stored(s.records, raw), ApplyBlocked(s, raw, destructive).value.records;
            && raw.key in t.conversations
            && t.conversations == s.records.conversations[raw.key := t.conversations[raw.key]]
            && Kept(before, t.conversations[raw.key]) && Written(before, t.conversations[raw.key], raw, true)
            && t == s.records.(conversations := t.conversations)
  {
    var created := GetOrCreate(s.records, raw.key, raw.at).value;
    PurgeKeepsRecords(RecordInbound(s.(records := Touch(created, raw.key, raw.at)), raw), raw);
  }

  lemma DeletionConversation(s: Life, raw: Raw, ids: seq<int>)
    requires ApplyDeletion(s, raw, ids).Some?
    ensures var before, t := Stored(s.records, raw), ApplyDeletion(s, raw, ids).value.records;
            && raw.key in t.conversations
            && t == s.records.(conversations := s.records.conversations[raw.key := t.conversations[raw.key]])
            && ConversationFollows(s, before, t.conversations[raw.key], raw, MessagesDeleted(ids))
  {
    var created := GetOrCreate(s.records, raw.key, raw.at).value;
    var marked := MarkDeleted(s.(records := created), raw.key, ids);
    assert OwnerReplied(marked, raw.key) <==> OwnerReplyLeft(s, raw.key, ids) by {
      if k :| k in s.ledger && k.0 == raw.key && s.ledger[k].ownerReply && !s.ledger[k].deleted && k.1 !in ids {
        assert marked.ledger[k] == s.ledger[k];
      }
    }
  }

  /** An applied action changes at most its own conversation, and that exactly as its kind demands. */
  lemma ConversationExactly(s: Life, raw: Raw, a: Prepared)
    requires Apply(s, raw, a).Some?
    ensures var before, t := Stored(s.records, raw), Apply(s, raw, a).value.records;
            if a == Ignore || a == ActiveInbound then t == s.records
            else && raw.key in t.conversations
                 && t.conversations == s.records.conversations[raw.key := t.conversations[raw.key]]
                 && ConversationFollows(s, before, t.conversations[raw.key], raw, a)
  {
    match a
    case InboundAction(_, _, _) => InboundConversation(s, raw, a);
    case BlockedInbound => BlockedConversation(s, raw, true);
    case BlockedFailOpen => BlockedConversation(s, raw, false);
    case MessagesDeleted(ids) => DeletionConversation(s, raw, ids);
    case _ =>
  }

  // ----- its challenges ------------------------------------------------------------------------

  /** Closed for answers, and its prompt no longer tracked. */
  predicate Shut(before: Challenge, after: Challenge) {
    after == before.(open := false, delivery := DeliveryClosed)
  }

  /** Exactly the open challenges of the conversation are closed. */
  predicate AllShut(before: map<int, Challenge>, after: map<int, Challenge>, key: Key) {
    && after.Keys == before.Keys
    && forall id :: id in before ==>
         if before[id].open && before[id].key == key then Shut(before[id], after[id]) else after[id] == before[id]
  }

  /** Exactly this challenge is closed, if it is open. */
  predicate OneShut(before: map<int, Challenge>, after: map<int, Challenge>, shut: int) {
    && after.Keys == before.Keys
    && forall id :: id in before ==>
         if id == shut && before[id].open then Shut(before[id], after[id]) else after[id] == before[id]
  }

  /** The attempt is counted on an open challenge, which is closed with its last one. */
  predicate OneCounted(before: map<int, Challenge>, after: map<int, Challenge>, id: int, last: bool) {
    && id in before && before[id].open && before[id].attempts < MAX_ATTEMPTS
    && after.Keys == before.Keys
    && (forall k :: k in before && k != id ==> after[k] == before[k])
    && var counted := before[id].(attempts := before[id].attempts + 1);
       if last then Shut(counted, after[id]) else after[id] == counted
  }

  predicate ChallengesFollow(r: Records, t: Records, raw: Raw, a: Prepared) {
    match a
    case InboundAction(_, StartChallenge(keyVersion, expiresAt), _) =>
      && t.nextChallenge == r.nextChallenge + 1
      && (forall id :: id in r.challenges ==> !(r.challenges[id].open && r.challenges[id].key == raw.key))
      && t.challenges
         == r.challenges[r.nextChallenge := Challenge(raw.key, keyVersion, expiresAt, 0, None, DeliveryPending, true)]
    case InboundAction(_, Correct(id), _) =>
      t.nextChallenge == r.nextChallenge && OneShut(r.challenges, t.challenges, id)
    case InboundAction(_, Expired(id), _) =>
      t.nextChallenge == r.nextChallenge && OneShut(r.challenges, t.challenges, id)
    case InboundAction(_, Incorrect(id, exhausted, _, _), _) =>
      t.nextChallenge == r.nextChallenge && OneCounted(r.challenges, t.challenges, id, exhausted)
    case InboundAction(_, SpamOutcome, _) =>
      t.nextChallenge == r.nextChallenge && AllShut(r.challenges, t.challenges, raw.key)
    case ManualOwner => t.nextChallenge == r.nextChallenge && AllShut(r.challenges, t.challenges, raw.key)
    case _ => t.nextChallenge == r.nextChallenge && t.challenges == r.challenges
  }

  /** Whatever else is stored about connections and modes stays. */
  predicate SettingsKept(r: Records, t: Records) {
    t.rows == r.rows && t.visible == r.visible && t.destructive == r.destructive
  }

  lemma OutcomeChallenges(s: Life, raw: Raw, c: Conversation, a: Prepared)
    requires a.InboundAction? && ApplyOutcome(s, raw, c, a.outcome).Some?
    ensures var t := ApplyOutcome(s, raw, c, a.outcome).value.life;
            ChallengesFollow(s.records, t.records, raw, a) && SettingsKept(s.records, t.records) && t.ledger == s.ledger
  {
    match a.outcome
    case SpamOutcome => SpamChallenges(s, raw, c);
    case Incorrect(_, _, _, _) => IncorrectChallenges(s, raw, c, a.outcome);
    case _ =>
  }

  lemma SpamChallenges(s: Life, raw: Raw, c: Conversation)
    requires ApplySpam(s, raw, c).Some?
    ensures var t := ApplySpam(s, raw, c).value.life;
            && t.records.nextChallenge == s.records.nextChallenge && SettingsKept(s.records, t.records)
            && AllShut(s.records.challenges, t.records.challenges, raw.key) && t.ledger == s.ledger
  {
    PurgeKeepsRecords(s.(records := CloseActive(s.records, raw.key)), raw);
  }

  lemma IncorrectChallenges(s: Life, raw: Raw, c: Conversation, o: Outcome)
    requires o.Incorrect? && ApplyIncorrect(s, raw, c, o).Some?
    ensures var t := ApplyIncorrect(s, raw, c, o).value.life;
            && t.records.nextChallenge == s.records.nextChallenge && SettingsKept(s.records, t.records)
            && OneCounted(s.records.challenges, t.records.challenges, o.challenge, o.exhausted) && t.ledger == s.ledger
  {
    var counted := IncrementAttempts(s.records, o.challenge).value;
    assert CloseChallenge(counted, o.challenge).challenges.Keys == s.records.challenges.Keys;
  }

  lemma InboundChallenges(s: Life, raw: Raw, a: Prepared)
    requires a.InboundAction? && ApplyInbound(s, raw, a).Some?
    ensures var t := ApplyInbound(s, raw, a).value.records;
            ChallengesFollow(s.records, t, raw, a) && SettingsKept(s.records, t)
  {
    var created := GetOrCreate(s.records, raw.key, raw.at).value;
    var annotated := Annotate(s.(records := created), raw, a);
    assert annotated.records == created;
    OutcomeChallenges(annotated, raw, created.conversations[raw.key], a);
    var e := ApplyOutcome(annotated, raw, created.conversations[raw.key], a.outcome).value;
    SameChallenges(created, s.records, e.life.records, ApplyInbound(s, raw, a).value.records, raw, a);
  }

  lemma SameChallenges(r: Records, q: Records, t: Records, u: Records, raw: Raw, a: Prepared)
    requires ChallengesFollow(r, t, raw, a) && r.challenges == q.challenges && r.nextChallenge == q.nextChallenge
    requires t.challenges == u.challenges && t.nextChallenge == u.nextChallenge
    ensures ChallengesFollow(q, u, raw, a)
  {
  }

  /** An applied action starts, counts or closes exactly the challenges its kind names, and nothing else changes. */
  lemma ChallengesExactly(s: Life, raw: Raw, a: Prepared)
    requires Apply(s, raw, a).Some?
    ensures var t := Apply(s, raw, a).value.records;
            ChallengesFollow(s.records, t, raw, a) && SettingsKept(s.records, t)
  {
    match a
    case InboundAction(_, _, _) => InboundChallenges(s, raw, a);
    case BlockedInbound => BlockedConversation(s, raw, true);
    case BlockedFailOpen => BlockedConversation(s, raw, false);
    case MessagesDeleted(ids) => DeletionConversation(s, raw, ids);
    case _ =>
  }

  // ----- the ledger -----------------------------------------------------------------------------

  /** What the ledger stores of the event's own message. */
  function MessageOf(raw: Raw, a: Prepared): Option<Message> {
    match a
    case InboundAction(_, _, _) => Some(Message(true, false, raw.at, false, true))
    case BlockedInbound => Some(Message(true, false, raw.at, false, true))
    case BlockedFailOpen => Some(Message(true, false, raw.at, false, true))
    case ManualOwner => Some(Message(false, true, raw.at, false, true))
    case ServiceMessage => Some(Message(false, false, raw.at, false, true))
    case _ => None
  }

  /** The first report of a message is kept, a deletion marks exactly the named messages, and nothing else changes. */
  predicate LedgerFollows(s: Life, t: Life, raw: Raw, a: Prepared) {
    var own := (raw.key, raw.message);
    && t.ledger.Keys == s.ledger.Keys + (if MessageOf(raw, a).Some? then {own} else {})
    && (MessageOf(raw, a).Some? && own !in s.ledger ==> t.ledger[own] == MessageOf(raw, a).value)
    && forall k :: k in s.ledger ==>
         if a.MessagesDeleted? && k.0 == raw.key && k.1 in a.ids then t.ledger[k] == s.ledger[k].(deleted := true)
         else t.ledger[k] == s.ledger[k]
  }

  lemma InboundLedger(s: Life, raw: Raw, a: Prepared)
    requires a.InboundAction? && ApplyInbound(s, raw, a).Some?
    ensures LedgerFollows(s, ApplyInbound(s, raw, a).value, raw, a)
  {
    var created := GetOrCreate(s.records, raw.key, raw.at).value;
    var annotated := Annotate(s.(records := created), raw, a);
    assert annotated.ledger == RecordInbound(s, raw).ledger;
    OutcomeChallenges(annotated, raw, created.conversations[raw.key], a);
    InboundIsSaved(s, raw, a);
  }

  /** Saving the conversation leaves ledger and queue as the outcome left them. */
  lemma InboundIsSaved(s: Life, raw: Raw, a: Prepared)
    requires a.InboundAction? && ApplyInbound(s, raw, a).Some?
    ensures var created := GetOrCreate(s.records, raw.key, raw.at).value;
            var annotated := Annotate(s.(records := created), raw, a);
            var e := ApplyOutcome(annotated, raw, created.conversations[raw.key], a.outcome);
            && e.Some? && annotated.records == created
            && ApplyInbound(s, raw, a).value.ledger == e.value.life.ledger
            && ApplyInbound(s, raw, a).value.outbox == e.value.life.outbox
  {
  }

  lemma BlockedLedger(s: Life, raw: Raw, destructive: bool)
    requires ApplyBlocked(s, raw, destructive).Some?
    ensures LedgerFollows(s, ApplyBlocked(s, raw, destructive).value, raw, BlockedInbound)
    ensures LedgerFollows(s, ApplyBlocked(s, raw, destructive).value, raw, BlockedFailOpen)
  {
    var created := GetOrCreate(s.records, raw.key, raw.at).value;
    PurgeKeepsRecords(RecordInbound(s.(records := Touch(created, raw.key, raw.at)), raw), raw);
  }

  lemma LedgerExactly(s: Life, raw: Raw, a: Prepared)
    requires Apply(s, raw, a).Some?
    ensures LedgerFollows(s, Apply(s, raw, a).value, raw, a)
  {
    match a
    case InboundAction(_, _, _) => InboundLedger(s, raw, a);
    case BlockedInbound => BlockedLedger(s, raw, true);
    case BlockedFailOpen => BlockedLedger(s, raw, false);
    case _ =>
  }

  // ----- the queue ------------------------------------------------------------------------------

  /** What is queued for an action, under which name and batch; the delete requests of a block come on top. */
  datatype Request = Request(name: ActionName, batch: nat, payload: Payload)

  function OutcomeRequests(r: Records, raw: Raw, o: Outcome): set<Request> {
    match o
    case StartChallenge(_, _) => {Request(NSend, 0, SendChallenge(r.nextChallenge))}
    case Retain => {}
    case Correct(id) => {Request(NEdit, 0, EditChallenge(id, EditSuccess))}
    case Expired(id) => {Request(NEdit, 0, EditChallenge(id, EditExpired))}
    case Incorrect(id, exhausted, remaining, until) =>
      if !exhausted then {Request(NEdit, 0, EditChallenge(id, EditIncorrect(remaining)))}
      else if until.Some? then {Request(NEdit, 0, EditChallenge(id, EditExhausted))}
      else {Request(NProposed, 1, ProposedBlock), Request(NEdit, 0, EditChallenge(id, EditExhaustedDryRun))}
    case SpamOutcome => {Request(NRead, 0, ReadMessage(raw.message))}
  }

  function Requests(r: Records, raw: Raw, a: Prepared): set<Request> {
    match a
    case InboundAction(verdict, o, dryRunSpam) =>
      (if dryRunSpam then {Request(NProposed, 0, ProposedSpam)} else {})
      + (if verdict == DetectorFailed then {Request(NOwner, 0, OwnerAlert)} else {})
      + OutcomeRequests(r, raw, o)
    case BlockedInbound => {Request(NRead, 0, ReadMessage(raw.message))}
    case _ => {}
  }

  predicate Deletes(a: Prepared) {
    a == BlockedInbound || (a.InboundAction? && a.outcome == SpamOutcome)
  }

  predicate Unchanged(before: map<Idempotency, Queued>, after: map<Idempotency, Queued>) {
    forall q :: q in before ==> q in after && after[q] == before[q]
  }

  /** Nothing queued is lost, every request is queued unless its key is taken, and nothing else is new. */
  ghost predicate QueueFollows(
    before: map<Idempotency, Queued>, after: map<Idempotency, Queued>, raw: Raw, wanted: set<Request>, deletes: bool)
  {
    && Unchanged(before, after)
    && (forall w :: w in wanted ==>
          var q := ByUpdate(raw.update, w.name, raw.key, w.batch);
          q in after && (q !in before ==> after[q] == Queued(raw.key, w.payload, true)))
    && forall q :: q in after && q !in before ==>
         && q.ByUpdate? && q.update == raw.update && q.key == raw.key
         && ((deletes && q.name == NDelete) || exists w :: w in wanted && w.name == q.name && w.batch == q.batch)
  }

  lemma {:induction false} BatchesKeep(s: Life, update: int, key: Key, batches: seq<seq<int>>, from: nat)
    ensures Unchanged(s.outbox, EnqueueBatches(s, update, key, batches, from).outbox)
    decreases |batches|
  {
    if batches != [] {
      BatchesKeep(Enqueue(s, update, key, from, DeleteMessages(batches[0])), update, key, batches[1..], from + 1);
    }
  }

  lemma PurgeQueue(s: Life, raw: Raw)
    ensures QueueFollows(s.outbox, Purge(s, raw).outbox, raw, {Request(NRead, 0, ReadMessage(raw.message))}, true)
  {
    var read := Enqueue(s, raw.update, raw.key, 0, ReadMessage(raw.message));
    var batches := Split(Sorted(EligibleIds(read, raw.key)));
    var t := EnqueueBatches(read, raw.update, raw.key, batches, 0);
    BatchesKeep(read, raw.update, raw.key, batches, 0);
    forall q | q in t.outbox && q !in read.outbox
      ensures q.ByUpdate? && q.update == raw.update && q.name == NDelete && q.key == raw.key
    {
      BatchesAddOnly(read, raw.update, raw.key, batches, 0, q);
    }
  }

  lemma IncorrectQueue(s: Life, raw: Raw, c: Conversation, o: Outcome)
    requires o.Incorrect? && ApplyIncorrect(s, raw, c, o).Some?
    ensures QueueFollows(s.outbox, ApplyIncorrect(s, raw, c, o).value.life.outbox, raw,
                         OutcomeRequests(s.records, raw, o), false)
  {
  }

  lemma OutcomeQueue(s: Life, raw: Raw, c: Conversation, o: Outcome)
    requires ApplyOutcome(s, raw, c, o).Some?
    ensures QueueFollows(s.outbox, ApplyOutcome(s, raw, c, o).value.life.outbox, raw,
                         OutcomeRequests(s.records, raw, o), o == SpamOutcome)
  {
    match o
    case SpamOutcome => PurgeQueue(s.(records := CloseActive(s.records, raw.key)), raw);
    case Incorrect(_, _, _, _) => IncorrectQueue(s, raw, c, o);
    case _ =>
  }

  function Notes(a: Prepared): set<Request>
    requires a.InboundAction?
  {
    (if a.dryRunSpam then {Request(NProposed, 0, ProposedSpam)} else {})
    + (if a.verdict == DetectorFailed then {Request(NOwner, 0, OwnerAlert)} else {})
  }

  lemma NotesQueue(s: Life, raw: Raw, a: Prepared)
    requires a.InboundAction?
    ensures QueueFollows(s.outbox, Annotate(s, raw, a).outbox, raw, Notes(a), false)
  {
  }

  lemma QueueTwice(x: map<Idempotency, Queued>, y: map<Idempotency, Queued>, z: map<Idempotency, Queued>, raw: Raw,
                   first: set<Request>, second: set<Request>, deletes: bool)
    requires QueueFollows(x, y, raw, first, false) && QueueFollows(y, z, raw, second, deletes)
    requires forall v, w :: v in first && w in second ==> v.name != w.name || v.batch != w.batch
    ensures QueueFollows(x, z, raw, first + second, deletes)
  {
    forall w | w in first + second
      ensures var q := ByUpdate(raw.update, w.name, raw.key, w.batch);
              q in z && (q !in x ==> z[q] == Queued(raw.key, w.payload, true))
    {
      var q := ByUpdate(raw.update, w.name, raw.key, w.batch);
    }
    forall q | q in z && q !in x
      ensures q.ByUpdate? && q.update == raw.update && q.key == raw.key
      ensures (deletes && q.name == NDelete)
              || exists w :: w in first + second && w.name == q.name && w.batch == q.batch
    {
      if q in y {
        var v :| v in first && v.name == q.name && v.batch == q.batch;
        assert v in first + second;
      } else if !(deletes && q.name == NDelete) {
        var w :| w in second && w.name == q.name && w.batch == q.batch;
        assert w in first + second;
      }
    }
  }

  lemma SameRequests(r: Records, t: Records, raw: Raw, o: Outcome)
    requires r.nextChallenge == t.nextChallenge
    ensures OutcomeRequests(r, raw, o) == OutcomeRequests(t, raw, o)
  {
  }

  /** The queue after the notes, and from there to the end. */
  lemma InboundStages(s: Life, raw: Raw, a: Prepared) returns (noted: map<Idempotency, Queued>)
    requires a.InboundAction? && ApplyInbound(s, raw, a).Some?
    ensures QueueFollows(s.outbox, noted, raw, Notes(a), false)
    ensures QueueFollows(noted, ApplyInbound(s, raw, a).value.outbox, raw,
                         OutcomeRequests(s.records, raw, a.outcome), a.outcome == SpamOutcome)
  {
    InboundIsSaved(s, raw, a);
    var created := GetOrCreate(s.records, raw.key, raw.at).value;
    var annotated := Annotate(s.(records := created), raw, a);
    NotesQueue(s.(records := created), raw, a);
    OutcomeQueue(annotated, raw, created.conversations[raw.key], a.outcome);
    SameRequests(annotated.records, s.records, raw, a.outcome);
    noted := annotated.outbox;
  }

  lemma RequestsSplit(r: Records, raw: Raw, a: Prepared)
    requires a.InboundAction?
    ensures Notes(a) + OutcomeRequests(r, raw, a.outcome) == Requests(r, raw, a)
    ensures forall v, w :: v in Notes(a) && w in OutcomeRequests(r, raw, a.outcome) ==>
              v.name != w.name || v.batch != w.batch
  {
    assert forall v :: v in Notes(a) ==> (v.name == NProposed || v.name == NOwner) && v.batch == 0;
    assert forall w :: w in OutcomeRequests(r, raw, a.outcome) ==>
             (w.name != NProposed && w.name != NOwner) || w.batch == 1;
  }

  lemma AllRequests(before: map<Idempotency, Queued>, noted: map<Idempotency, Queued>,
                    after: map<Idempotency, Queued>, r: Records, raw: Raw, a: Prepared)
    requires a.InboundAction? && QueueFollows(before, noted, raw, Notes(a), false)
    requires QueueFollows(noted, after, raw, OutcomeRequests(r, raw, a.outcome), a.outcome == SpamOutcome)
    ensures QueueFollows(before, after, raw, Requests(r, raw, a), Deletes(a))
  {
    RequestsSplit(r, raw, a);
    QueueTwice(before, noted, after, raw, Notes(a), OutcomeRequests(r, raw, a.outcome), a.outcome == SpamOutcome);
  }

  lemma InboundQueue(s: Life, raw: Raw, a: Prepared)
    requires a.InboundAction? && ApplyInbound(s, raw, a).Some?
    ensures QueueFollows(s.outbox, ApplyInbound(s, raw, a).value.outbox, raw, Requests(s.records, raw, a), Deletes(a))
  {
    var noted := InboundStages(s, raw, a);
    AllRequests(s.outbox, noted, ApplyInbound(s, raw, a).value.outbox, s.records, raw, a);
  }

  lemma BlockedQueue(s: Life, raw: Raw)
    requires ApplyBlocked(s, raw, true).Some?
    ensures QueueFollows(s.outbox, ApplyBlocked(s, raw, true).value.outbox, raw,
                         {Request(NRead, 0, ReadMessage(raw.message))}, true)
  {
    var created := GetOrCreate(s.records, raw.key, raw.at).value;
    PurgeQueue(RecordInbound(s.(records := Touch(created, raw.key, raw.at)), raw), raw);
  }

  /** What an applied action queues, for every action and whatever was queued before. */
  lemma QueueExactly(s: Life, raw: Raw, a: Prepared)
    requires Apply(s, raw, a).Some?
    ensures QueueFollows(s.outbox, Apply(s, raw, a).value.outbox, raw, Requests(s.records, raw, a), Deletes(a))
  {
    match a
    case InboundAction(_, _, _) => InboundQueue(s, raw, a);
    case BlockedInbound => BlockedQueue(s, raw);
    case _ =>
  }
}
