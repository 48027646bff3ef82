/** What single events do to counters, blocks and queued effects. */
module LifecycleEffects {
  import opened Prelude
  import opened Batches
  import opened Lifecycle
  import opened LifecycleInvariant
  import Arithmetic

  // ----- who blocks whom ---------------------------------------------------------------------

  /** The state a fitting or unfitting outcome leaves behind. */
  lemma OutcomeBlocks(s: Life, raw: Raw, c: Conversation, o: Outcome)
    requires ApplyOutcome(s, raw, c, o).Some?
    ensures var e := ApplyOutcome(s, raw, c, o).value;
            && e.life.records.conversations == s.records.conversations
            && (e.conversation.state != c.state ==>
                  && (e.conversation.state == SpamSoftBlocked ==> o == SpamOutcome)
                  && (e.conversation.state == TempSoftBlocked ==> o.Incorrect? && o.exhausted && o.blockExpires.Some?))
  {
    if o == SpamOutcome { PurgeKeepsRecords(s.(records := CloseActive(s.records, raw.key)), raw); }
  }

  /** `t` may differ from `r` in a blocked state only as outcome `o` allows. */
  predicate BlockedOnlyBy(r: Records, t: Records, key: Key, a: Prepared) {
    StateOf(t, key) != StateOf(r, key) && Blocked(StateOf(t, key)) ==>
      && a.InboundAction?
      && (StateOf(t, key) == SpamSoftBlocked ==> a.outcome == SpamOutcome)
      && (StateOf(t, key) == TempSoftBlocked ==>
            a.outcome.Incorrect? && a.outcome.exhausted && a.outcome.blockExpires.Some?)
  }

  lemma InboundBlocks(s: Life, raw: Raw, a: Prepared)
    requires a.InboundAction? && ApplyInbound(s, raw, a).Some?
    ensures BlockedOnlyBy(s.records, ApplyInbound(s, raw, a).value.records, raw.key, a)
    ensures forall key :: key != raw.key ==>
            StateOf(ApplyInbound(s, raw, a).value.records, key) == StateOf(s.records, key)
  {
    var created := GetOrCreate(s.records, raw.key, raw.at).value;
    var c := created.conversations[raw.key];
    var annotated := Annotate(s.(records := created), raw, a);
    assert annotated.records == created;
    OutcomeBlocks(annotated, raw, c, a.outcome);
    var e := ApplyOutcome(annotated, raw, c, a.outcome).value;
    EditStates(e, raw, c, created);
  }

  lemma EditStates(e: Edit, raw: Raw, c: Conversation, created: Records)
    requires e.life.records.conversations == created.conversations
    requires raw.key in created.conversations && created.conversations[raw.key] == c
    ensures StateOf(SaveEdit(e, raw, c).records, raw.key) == e.conversation.state
    ensures forall key :: key != raw.key ==> StateOf(SaveEdit(e, raw, c).records, key) == StateOf(created, key)
  {
  }

  lemma ApplyBlocks(s: Life, raw: Raw, a: Prepared, key: Key)
    requires Apply(s, raw, a).Some?
    ensures BlockedOnlyBy(s.records, Apply(s, raw, a).value.records, key, a)
    ensures key != raw.key ==> StateOf(Apply(s, raw, a).value.records, key) == StateOf(s.records, key)
  {
    match a
    case InboundAction(_, _, _) => InboundBlocks(s, raw, a);
    case BlockedInbound =>
      var created := GetOrCreate(s.records, raw.key, raw.at).value;
      PurgeKeepsRecords(RecordInbound(s.(records := Touch(created, raw.key, raw.at)), raw), raw);
    case _ =>
  }

  // ----- attempt counters ----------------------------------------------------------------------

  /** Attempt counters move only for the consumed challenge; new challenges start at zero. */
  predicate CountersFollow(r: Records, t: Records, consumed: Option<int>) {
    && r.nextChallenge <= t.nextChallenge
    && (consumed.Some? ==> consumed.value in r.challenges)
    && forall id :: id in t.challenges ==>
         if id in r.challenges
         then && t.challenges[id].key == r.challenges[id].key
              && t.challenges[id].attempts == r.challenges[id].attempts + (if consumed == Some(id) then 1 else 0)
         else r.nextChallenge <= id && t.challenges[id].attempts == 0
  }

  lemma StartCounters(s: Life, raw: Raw, c: Conversation, o: Outcome)
    requires o.StartChallenge? && ApplyStart(s, raw, c, o).Some? && Sound(s.records, false)
    ensures CountersFollow(s.records, ApplyStart(s, raw, c, o).value.life.records, None)
  {
    forall id | id in s.records.challenges
      ensures id < s.records.nextChallenge { assert ChallengeSound(s.records, id, false); }
  }

  lemma IncorrectCounters(s: Life, raw: Raw, c: Conversation, o: Outcome)
    requires o.Incorrect? && ApplyIncorrect(s, raw, c, o).Some?
    ensures CountersFollow(s.records, ApplyIncorrect(s, raw, c, o).value.life.records, Some(o.challenge))
  {
    var counted := IncrementAttempts(s.records, o.challenge).value;
    assert CountersFollow(s.records, counted, Some(o.challenge));
    assert CountersFollow(s.records, CloseChallenge(counted, o.challenge), Some(o.challenge));
  }

  lemma SpamCounters(s: Life, raw: Raw, c: Conversation)
    requires ApplySpam(s, raw, c).Some?
    ensures CountersFollow(s.records, ApplySpam(s, raw, c).value.life.records, None)
  {
    PurgeKeepsRecords(s.(records := CloseActive(s.records, raw.key)), raw);
  }

  lemma OutcomeCounters(s: Life, raw: Raw, c: Conversation, o: Outcome)
    requires ApplyOutcome(s, raw, c, o).Some? && Sound(s.records, false)
    ensures CountersFollow(s.records, ApplyOutcome(s, raw, c, o).value.life.records,
                           if o.Incorrect? then Some(o.challenge) else None)
  {
    match o
    case StartChallenge(_, _) => StartCounters(s, raw, c, o);
    case Incorrect(_, _, _, _) => IncorrectCounters(s, raw, c, o);
    case SpamOutcome => SpamCounters(s, raw, c);
    case _ =>
  }

  lemma InboundCounters(s: Life, raw: Raw, a: Prepared)
    requires a.InboundAction? && ApplyInbound(s, raw, a).Some? && Sound(s.records, false)
    ensures CountersFollow(s.records, ApplyInbound(s, raw, a).value.records,
                           if a.outcome.Incorrect? then Some(a.outcome.challenge) else None)
  {
    var created := GetOrCreate(s.records, raw.key, raw.at).value;
    GetOrCreateSound(s.records, raw.key, raw.at, false);
    var annotated := Annotate(s.(records := created), raw, a);
    assert annotated.records == created;
    OutcomeCounters(annotated, raw, created.conversations[raw.key], a.outcome);
  }

  lemma ApplyCounters(s: Life, raw: Raw, a: Prepared)
    requires Apply(s, raw, a).Some? && Sound(s.records, false)
    ensures CountersFollow(s.records, Apply(s, raw, a).value.records,
                           if a.InboundAction? && a.outcome.Incorrect? then Some(a.outcome.challenge) else None)
  {
    match a
    case InboundAction(_, _, _) => InboundCounters(s, raw, a);
    case BlockedInbound =>
      var created := GetOrCreate(s.records, raw.key, raw.at).value;
      PurgeKeepsRecords(RecordInbound(s.(records := Touch(created, raw.key, raw.at)), raw), raw);
    case _ =>
  }

  lemma IncorrectKeepsChallenges(s: Life, raw: Raw, c: Conversation, o: Outcome)
    requires o.Incorrect? && ApplyIncorrect(s, raw, c, o).Some?
    ensures s.records.challenges.Keys <= ApplyIncorrect(s, raw, c, o).value.life.records.challenges.Keys
  {
  }

  lemma SpamKeepsChallenges(s: Life, raw: Raw, c: Conversation)
    requires ApplySpam(s, raw, c).Some?
    ensures s.records.challenges.Keys <= ApplySpam(s, raw, c).value.life.records.challenges.Keys
  {
    PurgeKeepsRecords(s.(records := CloseActive(s.records, raw.key)), raw);
  }

  lemma OutcomeKeepsChallenges(s: Life, raw: Raw, c: Conversation, o: Outcome)
    requires ApplyOutcome(s, raw, c, o).Some?
    ensures s.records.challenges.Keys <= ApplyOutcome(s, raw, c, o).value.life.records.challenges.Keys
  {
    if o == SpamOutcome {
      SpamKeepsChallenges(s, raw, c);
    } else if o.Incorrect? {
      IncorrectKeepsChallenges(s, raw, c, o);
    }
  }

  lemma ApplyKeepsChallenges(s: Life, raw: Raw, a: Prepared)
    requires Apply(s, raw, a).Some?
    ensures s.records.challenges.Keys <= Apply(s, raw, a).value.records.challenges.Keys
  {
    match a {
      case InboundAction(_, _, _) =>
        var created := GetOrCreate(s.records, raw.key, raw.at).value;
        var annotated := Annotate(s.(records := created), raw, a);
        OutcomeKeepsChallenges(annotated, raw, created.conversations[raw.key], a.outcome);
      case BlockedInbound =>
        var created := GetOrCreate(s.records, raw.key, raw.at).value;
        PurgeKeepsRecords(RecordInbound(s.(records := Touch(created, raw.key, raw.at)), raw), raw);
      case _ =>
    }
  }

  /** The message counts as a failed answer to this challenge. */
  predicate FailsChallenge(r: Records, raw: Raw, id: int)
    requires id in r.challenges
  {
    && raw.kind == Inbound && CanReply(r, raw.key) && raw.verdict != Spam
    && raw.now < r.challenges[id].expiresAt && raw.answer != Arithmetic.AnswerKind.Correct
  }

  lemma PreparedFailure(r: Records, c: Config, raw: Raw, id: int)
    requires Inv(r) && OpenFor(r, raw.key, id) && Prepare(r, c, raw).Ok?
    ensures var a := Prepare(r, c, raw).value;
            && (a.InboundAction? && a.outcome.Incorrect? <==> FailsChallenge(r, raw, id))
            && (a.InboundAction? && a.outcome.Incorrect? ==> a.outcome.challenge == id)
  {
    OpenHolder(r, raw.key, id, true);
  }

  lemma AppliedFailure(s: Life, raw: Raw, a: Prepared, id: int)
    requires Sound(s.records, false) && id in s.records.challenges && Apply(s, raw, a).Some?
    ensures var t := Apply(s, raw, a).value.records.challenges;
            && id in t
            && t[id].attempts == s.records.challenges[id].attempts
                                 + (if a.InboundAction? && a.outcome.Incorrect? && a.outcome.challenge == id then 1
                                   else 0)
  {
    ApplyCounters(s, raw, a);
    ApplyKeepsChallenges(s, raw, a);
  }

  /** A decision that fits, for a connection that exists, is applied and keeps the invariant. */
  lemma FittingApplies(s: Life, raw: Raw, a: Prepared)
    requires Inv(s.records) && ActionFits(s.records, raw, a) && raw.key.conn in s.records.rows
    ensures Apply(s, raw, a).Some? && Inv(Apply(s, raw, a).value.records)
  {
    ApplySound(s, raw, a, true);
  }

  /**
   Exactly which messages use up an attempt of an open challenge: unedited,
   unexpired, answerable, not spam, and anything but the correct answer.  Replies
   that are no numbers at all are among them.
   */
  lemma AttemptConsumedExactly(s: Life, c: Config, raw: Raw, id: int)
    requires Inv(s.records) && OpenFor(s.records, raw.key, id) && Prepare(s.records, c, raw).Ok?
    ensures Apply(s, raw, Prepare(s.records, c, raw).value).Some?
    ensures var t := Apply(s, raw, Prepare(s.records, c, raw).value).value.records.challenges;
            && id in t
            && t[id].attempts
               == s.records.challenges[id].attempts + (if FailsChallenge(s.records, raw, id) then 1 else 0)
  {
    OpenHolder(s.records, raw.key, id, true);
    assert ConversationSound(s.records, raw.key, true);
    PrepareFits(s.records, c, raw);
    PreparedFailure(s.records, c, raw, id);
    FittingApplies(s, raw, Prepare(s.records, c, raw).value);
    InvIsSound(s.records, false);
    AppliedFailure(s, raw, Prepare(s.records, c, raw).value, id);
  }

  /** The user documentation promises otherwise: here a reply without any number costs an attempt. */
  lemma NonNumericReplyCounts() returns (s: Life, c: Config, raw: Raw)
    ensures Inv(s.records) && OpenFor(s.records, raw.key, 1) && s.records.challenges[1].attempts == 0
    ensures raw.answer == Arithmetic.AnswerKind.NonNumeric
    ensures Prepare(s.records, c, raw).Ok? && Apply(s, raw, Prepare(s.records, c, raw).value).Some?
    ensures var t := Apply(s, raw, Prepare(s.records, c, raw).value).value.records.challenges;
            1 in t && t[1].attempts == 1
  {
    var key := Key("a", 5);
    var r := Records({"a"}, map["a" := Visible(true, true, true, true)], None,
                     map[key := Conversation(VerifyPending, 0, None, None, 0, 0)],
                     map[1 := Challenge(key, 1, 120, 0, None, DeliverySent, true)], 2);
    s, c := Life(r, map[], map[]), Config(1, false);
    raw := Raw(9, Inbound, key, 7, 10, 10, Allow, Arithmetic.AnswerKind.NonNumeric, []);
    assert OpenFor(r, key, 1);
    AttemptConsumedExactly(s, c, raw, 1);
  }

  // ----- dry-run ----------------------------------------------------------------------------------

  predicate Destroys(p: Payload) {
    p.ReadMessage? || p.DeleteMessages?
  }

  /** Nothing destructive was queued between two outboxes. */
  predicate NothingDestroyed(before: map<Idempotency, Queued>, after: map<Idempotency, Queued>) {
    forall q :: q in after ==> (q in before && after[q] == before[q]) || !Destroys(after[q].payload)
  }

  lemma EnqueueIsHarmless(s: Life, update: int, key: Key, batch: nat, p: Payload)
    requires !Destroys(p)
    ensures NothingDestroyed(s.outbox, Enqueue(s, update, key, batch, p).outbox)
  {
  }

  lemma ExhaustedIsHarmless(s: Life, raw: Raw, c: Conversation, o: Outcome)
    requires o.Incorrect? && ApplyExhausted(s, raw, c, o).Some?
    ensures NothingDestroyed(s.outbox, ApplyExhausted(s, raw, c, o).value.life.outbox)
  {
    EnqueueIsHarmless(s, raw.update, raw.key, 1, ProposedBlock);
  }

  lemma OutcomeIsHarmless(s: Life, raw: Raw, c: Conversation, o: Outcome)
    requires ApplyOutcome(s, raw, c, o).Some? && o != SpamOutcome
    ensures NothingDestroyed(s.outbox, ApplyOutcome(s, raw, c, o).value.life.outbox)
  {
    match o
    case StartChallenge(_, _) =>
    case Retain =>
    case Correct(id) =>
    case Expired(id) =>
    case Incorrect(id, exhausted, _, _) =>
      if exhausted {
        ExhaustedIsHarmless(s.(records := CloseChallenge(IncrementAttempts(s.records, id).value, id)), raw, c, o);
      }
  }

  lemma AnnotateIsHarmless(s: Life, raw: Raw, a: Prepared)
    requires a.InboundAction?
    ensures NothingDestroyed(s.outbox, Annotate(s, raw, a).outbox)
  {
    EnqueueIsHarmless(RecordInbound(s, raw), raw.update, raw.key, 0, ProposedSpam);
  }

  lemma InboundIsHarmless(s: Life, raw: Raw, a: Prepared)
    requires a.InboundAction? && a.outcome != SpamOutcome && ApplyInbound(s, raw, a).Some?
    ensures NothingDestroyed(s.outbox, ApplyInbound(s, raw, a).value.outbox)
  {
    var created := GetOrCreate(s.records, raw.key, raw.at).value;
    var annotated := Annotate(s.(records := created), raw, a);
    AnnotateIsHarmless(s.(records := created), raw, a);
    OutcomeIsHarmless(annotated, raw, created.conversations[raw.key], a.outcome);
    HarmlessTransitive(s.outbox, annotated.outbox, ApplyInbound(s, raw, a).value.outbox);
  }

  lemma HarmlessTransitive(a: map<Idempotency, Queued>, b: map<Idempotency, Queued>, c: map<Idempotency, Queued>)
    requires NothingDestroyed(a, b) && NothingDestroyed(b, c)
    ensures NothingDestroyed(a, c)
  {
  }

  lemma ApplyIsHarmless(s: Life, raw: Raw, a: Prepared)
    requires Apply(s, raw, a).Some? && a != BlockedInbound && !(a.InboundAction? && a.outcome == SpamOutcome)
    ensures NothingDestroyed(s.outbox, Apply(s, raw, a).value.outbox)
  {
    if a.InboundAction? { InboundIsHarmless(s, raw, a); }
  }

  // ----- where queued actions come from -------------------------------------------------------------

  /** Everything queued since `before` belongs to the update. */
  predicate QueuedBy(before: map<Idempotency, Queued>, after: map<Idempotency, Queued>, update: int) {
    forall q :: q in after && q !in before ==> q.ByUpdate? && q.update == update
  }

  lemma {:induction false} BatchesQueuedBy(s: Life, update: int, key: Key, batches: seq<seq<int>>, from: nat)
    ensures QueuedBy(s.outbox, EnqueueBatches(s, update, key, batches, from).outbox, update)
    decreases |batches|
  {
    if batches != [] {
      BatchesQueuedBy(Enqueue(s, update, key, from, DeleteMessages(batches[0])), update, key, batches[1..], from + 1);
    }
  }

  lemma PurgeQueuedBy(s: Life, raw: Raw)
    ensures QueuedBy(s.outbox, Purge(s, raw).outbox, raw.update)
  {
    var read := Enqueue(s, raw.update, raw.key, 0, ReadMessage(raw.message));
    BatchesQueuedBy(read, raw.update, raw.key, Split(Sorted(EligibleIds(read, raw.key))), 0);
  }

  lemma ExhaustedQueuedBy(s: Life, raw: Raw, c: Conversation, o: Outcome)
    requires o.Incorrect? && ApplyExhausted(s, raw, c, o).Some?
    ensures QueuedBy(s.outbox, ApplyExhausted(s, raw, c, o).value.life.outbox, raw.update)
  {
  }

  lemma OutcomeQueuedBy(s: Life, raw: Raw, c: Conversation, o: Outcome)
    requires ApplyOutcome(s, raw, c, o).Some?
    ensures QueuedBy(s.outbox, ApplyOutcome(s, raw, c, o).value.life.outbox, raw.update)
  {
    match o
    case SpamOutcome => PurgeQueuedBy(s.(records := CloseActive(s.records, raw.key)), raw);
    case Incorrect(id, exhausted, _, _) =>
      if exhausted {
        ExhaustedQueuedBy(s.(records := CloseChallenge(IncrementAttempts(s.records, id).value, id)), raw, c, o);
      }
    case _ =>
  }

  lemma AnnotateQueuedBy(s: Life, raw: Raw, a: Prepared)
    requires a.InboundAction?
    ensures QueuedBy(s.outbox, Annotate(s, raw, a).outbox, raw.update)
  {
  }

  lemma ApplyQueuedBy(s: Life, raw: Raw, a: Prepared)
    requires Apply(s, raw, a).Some?
    ensures QueuedBy(s.outbox, Apply(s, raw, a).value.outbox, raw.update)
  {
    match a
    case InboundAction(_, _, _) =>
      var created := GetOrCreate(s.records, raw.key, raw.at).value;
      AnnotateQueuedBy(s.(records := created), raw, a);
      OutcomeQueuedBy(Annotate(s.(records := created), raw, a), raw, created.conversations[raw.key], a.outcome);
    case BlockedInbound =>
      var created := GetOrCreate(s.records, raw.key, raw.at).value;
      PurgeQueuedBy(RecordInbound(s.(records := Touch(created, raw.key, raw.at)), raw), raw);
    case _ =>
  }

  // ----- delete requests ----------------------------------------------------------------------------

  /** The outbox holds exactly these delete requests for the update, in order, from batch `from` on. */
  predicate HoldsBatches(outbox: map<Idempotency, Queued>, update: int, key: Key, batches: seq<seq<int>>, from: nat) {
    && (forall i :: from <= i < from + |batches| ==>
          && ByUpdate(update, NDelete, key, i) in outbox
          && outbox[ByUpdate(update, NDelete, key, i)].payload == DeleteMessages(batches[i - from]))
    && forall q :: q in outbox && q.ByUpdate? && q.update == update && q.name == NDelete && q.key == key ==>
         (from <= q.batch ==> q.batch < from + |batches|)
  }

  lemma {:induction false} BatchesAreQueued(s: Life, update: int, key: Key, batches: seq<seq<int>>, from: nat)
    requires HoldsBatches(s.outbox, update, key, [], from)
    ensures HoldsBatches(EnqueueBatches(s, update, key, batches, from).outbox, update, key, batches, from)
    ensures var t := EnqueueBatches(s, update, key, batches, from);
            forall q :: q in s.outbox ==> (q in t.outbox && t.outbox[q] == s.outbox[q])
    decreases |batches|
  {
    if batches != [] {
      var first := Enqueue(s, update, key, from, DeleteMessages(batches[0]));
      assert ByUpdate(update, NDelete, key, from) !in s.outbox;
      BatchesAreQueued(first, update, key, batches[1..], from + 1);
      var t := EnqueueBatches(s, update, key, batches, from);
      forall i | from <= i < from + |batches|
        ensures ByUpdate(update, NDelete, key, i) in t.outbox
        ensures t.outbox[ByUpdate(update, NDelete, key, i)].payload == DeleteMessages(batches[i - from])
      {
        if i == from { assert ByUpdate(update, NDelete, key, i) in first.outbox; }
      }
    }
  }

  predicate FreshUpdate(outbox: map<Idempotency, Queued>, update: int) {
    forall q :: q in outbox && q.ByUpdate? ==> q.update != update
  }

  lemma PurgeQueues(s: Life, raw: Raw)
    requires HoldsBatches(s.outbox, raw.update, raw.key, [], 0)
    ensures var t := Purge(s, raw);
            t.ledger == s.ledger
              && HoldsBatches(t.outbox, raw.update, raw.key, Split(Sorted(EligibleIds(t, raw.key))), 0)
  {
    var read := Enqueue(s, raw.update, raw.key, 0, ReadMessage(raw.message));
    var batches := Split(Sorted(EligibleIds(read, raw.key)));
    BatchesKeepRecords(read, raw.update, raw.key, batches, 0);
    BatchesAreQueued(read, raw.update, raw.key, batches, 0);
    assert EligibleIds(Purge(s, raw), raw.key) == EligibleIds(read, raw.key);
  }

  /** Requests of one to a hundred IDs each that together name exactly `wanted`, ascending and once. */
  ghost predicate DeletesExactly(t: Life, update: int, key: Key, wanted: set<int>) {
    var ids := Sorted(wanted);
    && HoldsBatches(t.outbox, update, key, Split(ids), 0)
    && Flatten(Split(ids)) == ids
    && (forall i :: 0 <= i < |Split(ids)| ==> 1 <= |Split(ids)[i]| <= BATCH_LIMIT)
    && (forall x :: x in ids <==> x in wanted)
    && (forall i, j :: 0 <= i < j < |ids| ==> ids[i] < ids[j])
  }

  /** Blocking or re-blocking a conversation asks for exactly its eligible known messages to be deleted. */
  lemma DeletesAreExact(s: Life, raw: Raw, a: Prepared)
    requires Apply(s, raw, a).Some? && FreshUpdate(s.outbox, raw.update)
    requires a == BlockedInbound || (a.InboundAction? && a.outcome == SpamOutcome)
    ensures var t := Apply(s, raw, a).value; DeletesExactly(t, raw.update, raw.key, EligibleIds(t, raw.key))
  {
    var t := Apply(s, raw, a).value;
    if a == BlockedInbound {
      BlockedDeletes(s, raw);
    } else {
      SpamDeletes(s, raw, a);
    }
    SplitIsLossless(Sorted(EligibleIds(t, raw.key)));
    SortedIsExact(EligibleIds(t, raw.key));
  }

  lemma BlockedDeletes(s: Life, raw: Raw)
    requires ApplyBlocked(s, raw, true).Some? && FreshUpdate(s.outbox, raw.update)
    ensures var t := ApplyBlocked(s, raw, true).value;
            HoldsBatches(t.outbox, raw.update, raw.key, Split(Sorted(EligibleIds(t, raw.key))), 0)
  {
    var created := GetOrCreate(s.records, raw.key, raw.at).value;
    PurgeQueues(RecordInbound(s.(records := Touch(created, raw.key, raw.at)), raw), raw);
  }

  lemma SpamDeletes(s: Life, raw: Raw, a: Prepared)
    requires a.InboundAction? && a.outcome == SpamOutcome && ApplyInbound(s, raw, a).Some?
             && FreshUpdate(s.outbox, raw.update)
    ensures var t := ApplyInbound(s, raw, a).value;
            HoldsBatches(t.outbox, raw.update, raw.key, Split(Sorted(EligibleIds(t, raw.key))), 0)
  {
    var created := GetOrCreate(s.records, raw.key, raw.at).value;
    var annotated := Annotate(s.(records := created), raw, a);
    var c := created.conversations[raw.key];
    AnnotateIsFresh(s.(records := created), raw, a);
    SpamQueues(annotated, raw, c);
    SameEligible(ApplySpam(annotated, raw, c).value.life, ApplyInbound(s, raw, a).value, raw.key);
  }

  lemma AnnotateIsFresh(s: Life, raw: Raw, a: Prepared)
    requires a.InboundAction? && FreshUpdate(s.outbox, raw.update)
    ensures HoldsBatches(Annotate(s, raw, a).outbox, raw.update, raw.key, [], 0)
  {
  }

  lemma SameEligible(s: Life, t: Life, key: Key)
    requires s.ledger == t.ledger
    ensures EligibleIds(s, key) == EligibleIds(t, key)
  {
  }

  lemma SpamQueues(s: Life, raw: Raw, c: Conversation)
    requires HoldsBatches(s.outbox, raw.update, raw.key, [], 0) && ApplySpam(s, raw, c).Some?
    ensures var e := ApplySpam(s, raw, c).value;
            HoldsBatches(e.life.outbox, raw.update, raw.key, Split(Sorted(EligibleIds(e.life, raw.key))), 0)
  {
    PurgeQueues(s.(records := CloseActive(s.records, raw.key)), raw);
  }

  /** Batches add nothing but delete requests of their own update. */
  lemma {:induction false} BatchesAddOnly(s: Life, update: int, key: Key, batches: seq<seq<int>>, from: nat,
      q: Idempotency)
    requires q in EnqueueBatches(s, update, key, batches, from).outbox && q !in s.outbox
    ensures q.ByUpdate? && q.update == update && q.name == NDelete && q.key == key
    decreases |batches|
  {
    if batches != [] {
      var first := Enqueue(s, update, key, from, DeleteMessages(batches[0]));
      if q !in first.outbox {
        BatchesAddOnly(first, update, key, batches[1..], from + 1, q);
      }
    }
  }

  /** No challenge and no ledger row is left, and nothing unfinished but the update's own delete requests. */
  predicate Forgotten(t: Life, update: int, key: Key) {
    && (forall id :: id in t.records.challenges ==> t.records.challenges[id].key != key)
    && (forall k :: k in t.ledger ==> k.0 != key)
    && (forall q :: q in t.outbox && t.outbox[q].key == key && t.outbox[q].unfinished ==>
          q.ByUpdate? && q.update == update && q.name == NDelete && q.key == key)
  }

  /**
   A reset forgets the conversation completely, and its new delete requests
   together name every deletable message and every prompt exactly once.
   */
  lemma ResetForgetsExactly(s: Life, update: int, key: Key, now: int)
    requires Reset(s, update, key, now).Some? && FreshUpdate(s.outbox, update)
    ensures var t := Reset(s, update, key, now).value;
            && Forgotten(t, update, key)
            && DeletesExactly(t, update, key, EligibleIds(s, key) + Prompts(s.records, key))
  {
    var wanted := EligibleIds(s, key) + Prompts(s.records, key);
    var batches := Split(Sorted(wanted));
    var cleared := ClearConversation(s, key, now);
    ResetRecords(s, update, key, now);
    BatchesKeepRecords(cleared, update, key, batches, 0);
    BatchesAreQueued(cleared, update, key, batches, 0);
    SplitIsLossless(Sorted(wanted));
    SortedIsExact(wanted);
    var t := Reset(s, update, key, now).value;
    assert forall q :: q in cleared.outbox ==> q in t.outbox && t.outbox[q] == cleared.outbox[q];
    forall q | q in t.outbox && t.outbox[q].key == key && t.outbox[q].unfinished
      ensures q.ByUpdate? && q.update == update && q.name == NDelete && q.key == key
    {
      BatchesAddOnly(cleared, update, key, batches, 0, q);
    }
  }
}
