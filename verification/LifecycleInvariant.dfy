/**
 Conversation invariants, when a stored decision can be applied, and when its
 application keeps the invariants.
 */
module LifecycleInvariant {
  import opened Prelude
  import opened Batches
  import opened Lifecycle

  // ----- the invariant ---------------------------------------------------------------

  /** `strict` adds what only a decision applied out of order can break. */
  predicate ConversationSound(r: Records, key: Key, strict: bool)
    requires key in r.conversations
  {
    var c := r.conversations[key];
    && key.conn in r.rows
    && (c.state == VerifyPending ==> HasOpen(r, key))
    && (strict && HasOpen(r, key) ==> c.state == VerifyPending)
    && (c.blockExpires.Some? <==> c.state == TempSoftBlocked)
    && (c.blockReason.Some? <==> Blocked(c.state))
  }

  predicate ChallengeSound(r: Records, id: int, strict: bool)
    requires id in r.challenges
  {
    var c := r.challenges[id];
    && id < r.nextChallenge
    && c.key in r.conversations
    && (strict && c.open ==> c.attempts < MAX_ATTEMPTS)
  }

  /** At most one open challenge per conversation. */
  predicate OneOpen(r: Records) {
    forall a, b :: a in r.challenges && b in r.challenges
                   && r.challenges[a].open && r.challenges[b].open && r.challenges[a].key == r.challenges[b].key
                   ==> a == b
  }

  predicate Sound(r: Records, strict: bool) {
    && (forall key :: key in r.conversations ==> ConversationSound(r, key, strict))
    && (forall id :: id in r.challenges ==> ChallengeSound(r, id, strict))
    && OneOpen(r)
    && (forall conn :: conn in r.visible ==> conn in r.rows)
  }

  /** The full invariant. */
  predicate Inv(r: Records) {
    Sound(r, true)
  }

  lemma InvIsSound(r: Records, strict: bool)
    requires Inv(r)
    ensures Sound(r, strict)
  {
    forall key | key in r.conversations ensures ConversationSound(r, key, strict) {
      assert ConversationSound(r, key, true);
    }
    forall id | id in r.challenges ensures ChallengeSound(r, id, strict) { assert ChallengeSound(r, id, true); }
  }

  lemma OpenHolder(r: Records, key: Key, id: int, strict: bool)
    requires Sound(r, strict) && OpenFor(r, key, id)
    ensures key in r.conversations && HasOpen(r, key)
    ensures strict ==> r.conversations[key].state == VerifyPending
    ensures forall other :: OpenFor(r, key, other) ==> other == id
  {
    assert ChallengeSound(r, id, strict);
    assert ConversationSound(r, key, strict);
  }

  lemma OpenHasRow(r: Records, key: Key, strict: bool)
    requires Sound(r, strict) && HasOpen(r, key)
    ensures key in r.conversations
  {
    var id :| id in r.challenges && OpenFor(r, key, id);
    assert ChallengeSound(r, id, strict);
  }

  // ----- one conversation changes, the others stay --------------------------------------

  /** The challenges of other conversations are exactly as before. */
  predicate OthersKept(before: map<int, Challenge>, after: map<int, Challenge>, key: Key) {
    && (forall id :: id in after && after[id].key != key ==> id in before && after[id] == before[id])
    && (forall id :: id in before && before[id].key != key ==> id in after && after[id] == before[id])
  }

  /** The conversation's own challenges are within bounds, `open` naming the open one if any. */
  predicate OwnSound(after: map<int, Challenge>, key: Key, next: int, open: Option<int>, strict: bool) {
    && (forall id :: id in after && after[id].key == key ==> id < next && (after[id].open <==> open == Some(id)))
    && (open.Some? ==> open.value in after && after[open.value].key == key)
    && (strict && open.Some? ==> after[open.value].attempts < MAX_ATTEMPTS)
  }

  predicate RowSound(c: Conversation, open: Option<int>, strict: bool) {
    && (c.state == VerifyPending ==> open.Some?)
    && (strict && open.Some? ==> c.state == VerifyPending)
    && (c.blockExpires.Some? <==> c.state == TempSoftBlocked)
    && (c.blockReason.Some? <==> Blocked(c.state))
  }

  /** Replacing one conversation's row and challenges by sound ones keeps the invariant. */
  lemma LocalSound(r: Records, t: Records, key: Key, open: Option<int>, strict: bool)
    requires Sound(r, strict) && key.conn in r.rows
    requires t.rows == r.rows && t.visible == r.visible && r.nextChallenge <= t.nextChallenge
    requires t.conversations.Keys == r.conversations.Keys + {key}
    requires forall k :: k in r.conversations && k != key ==> t.conversations[k] == r.conversations[k]
    requires OthersKept(r.challenges, t.challenges, key)
    requires OwnSound(t.challenges, key, t.nextChallenge, open, strict)
    requires RowSound(t.conversations[key], open, strict)
    ensures Sound(t, strict)
  {
    forall k | k in t.conversations ensures ConversationSound(t, k, strict) {
      if k == key {
        OwnOpen(t, key, open, strict);
      } else {
        assert ConversationSound(r, k, strict);
        OtherOpen(r, t, key, k);
      }
    }
    forall id | id in t.challenges ensures ChallengeSound(t, id, strict) {
      if t.challenges[id].key != key { assert ChallengeSound(r, id, strict); }
    }
    LocalOneOpen(r, t, key, open, strict);
  }

  lemma LocalOneOpen(r: Records, t: Records, key: Key, open: Option<int>, strict: bool)
    requires OneOpen(r) && OthersKept(r.challenges, t.challenges, key)
    requires OwnSound(t.challenges, key, t.nextChallenge, open, strict)
    ensures OneOpen(t)
  {
  }

  lemma OwnOpen(t: Records, key: Key, open: Option<int>, strict: bool)
    requires OwnSound(t.challenges, key, t.nextChallenge, open, strict)
    ensures HasOpen(t, key) <==> open.Some?
  {
    if open.Some? { assert OpenFor(t, key, open.value); }
  }

  lemma OtherOpen(r: Records, t: Records, key: Key, k: Key)
    requires k != key && OthersKept(r.challenges, t.challenges, key)
    ensures HasOpen(t, k) == HasOpen(r, k)
  {
    if HasOpen(r, k) {
      var id :| id in r.challenges && OpenFor(r, k, id);
      assert OpenFor(t, k, id);
    }
    if HasOpen(t, k) {
      var id :| id in t.challenges && OpenFor(t, k, id);
      assert OpenFor(r, k, id);
    }
  }

  /** The invariant, seen from one conversation. */
  lemma Localize(r: Records, key: Key, strict: bool) returns (open: Option<int>)
    requires Sound(r, strict) && key in r.conversations
    ensures OwnSound(r.challenges, key, r.nextChallenge, open, strict)
    ensures RowSound(r.conversations[key], open, strict) && key.conn in r.rows
    ensures forall id :: OpenFor(r, key, id) <==> open == Some(id)
    ensures HasOpen(r, key) <==> open.Some?
  {
    assert ConversationSound(r, key, strict);
    open := ActiveChallenge(r, key);
    if open.Some? { OpenHolder(r, key, open.value, strict); }
    forall id | id in r.challenges && r.challenges[id].key == key
      ensures id < r.nextChallenge && (r.challenges[id].open <==> open == Some(id))
    {
      assert ChallengeSound(r, id, strict);
      assert r.challenges[id].open <==> OpenFor(r, key, id);
    }
    if open.Some? { assert ChallengeSound(r, open.value, strict); }
  }

  lemma GetOrCreateSound(r: Records, key: Key, at: int, strict: bool)
    requires Sound(r, strict) && GetOrCreate(r, key, at).Some?
    ensures var t := GetOrCreate(r, key, at).value;
            && Sound(t, strict) && key in t.conversations && key.conn in t.rows
            && t.challenges == r.challenges && t.nextChallenge == r.nextChallenge
            && StateOf(t, key) == StateOf(r, key)
  {
    var t := GetOrCreate(r, key, at).value;
    if key in r.conversations {
      assert ConversationSound(r, key, strict);
    } else {
      forall id | id in t.challenges ensures t.challenges[id].key != key { assert ChallengeSound(r, id, strict); }
      LocalSound(r, t, key, None, strict);
    }
  }

  /** Saving a conversation whose own challenges are as described. */
  lemma SaveSound(r: Records, t: Records, key: Key, c: Conversation, open: Option<int>, strict: bool)
    requires Sound(r, strict) && key in r.conversations
    requires t == Save(r.(challenges := t.challenges, nextChallenge := t.nextChallenge), key, c)
    requires r.nextChallenge <= t.nextChallenge && OthersKept(r.challenges, t.challenges, key)
    requires OwnSound(t.challenges, key, t.nextChallenge, open, strict) && RowSound(c, open, strict)
    ensures Sound(t, strict)
  {
    assert ConversationSound(r, key, strict);
    LocalSound(r, t, key, open, strict);
  }

  // ----- stored decisions -------------------------------------------------------------------

  /** The challenge a decision names. */
  function Named(o: Outcome): Option<int> {
    match o
    case Correct(id) => Some(id)
    case Expired(id) => Some(id)
    case Incorrect(id, _, _, _) => Some(id)
    case _ => None
  }

  /** A challenge named by a decision belongs to the decision's conversation, if it still exists. */
  predicate NamesOwn(r: Records, key: Key, o: Outcome) {
    Named(o).Some? ==>
      && Named(o).value < r.nextChallenge
      && (Named(o).value in r.challenges ==> r.challenges[Named(o).value].key == key)
  }

  /** The handler can carry out the outcome. */
  predicate CanRun(r: Records, key: Key, o: Outcome) {
    match o
    case StartChallenge(_, _) => StateOf(r, key) == New && !HasOpen(r, key)
    case Retain => true
    case Correct(_) => StateOf(r, key) == VerifyPending
    case Expired(_) => StateOf(r, key) == VerifyPending
    case Incorrect(id, exhausted, _, _) =>
      && id in r.challenges && r.challenges[id].open && r.challenges[id].attempts < MAX_ATTEMPTS
      && (exhausted ==> StateOf(r, key) == VerifyPending)
    case SpamOutcome => StateOf(r, key) in {New, VerifyPending, VerifiedWaitingOwner}
  }

  /** Carrying it out leaves no challenge behind that the conversation's state denies or that has no attempt left. */
  predicate Harmless(r: Records, key: Key, o: Outcome) {
    match o
    case Correct(id) => OpenFor(r, key, id)
    case Expired(id) => OpenFor(r, key, id)
    case Incorrect(id, exhausted, _, _) =>
      exhausted || (id in r.challenges && r.challenges[id].attempts + 1 < MAX_ATTEMPTS)
    case _ => true
  }

  /** Actions that write conversation rows. */
  predicate NeedsRow(a: Prepared) {
    a != Ignore && a != ActiveInbound
  }

  predicate ActionNamesOwn(r: Records, key: Key, a: Prepared) {
    a.InboundAction? ==> NamesOwn(r, key, a.outcome)
  }

  /** When a stored action can be applied at all. */
  predicate Applicable(r: Records, key: Key, a: Prepared) {
    && (NeedsRow(a) ==> key.conn in r.rows)
    && (a.InboundAction? ==> CanRun(r, key, a.outcome))
  }

  predicate ActionHarmless(r: Records, key: Key, a: Prepared) {
    a.InboundAction? ==> Harmless(r, key, a.outcome)
  }

  /** A decision as the preparer makes it: it can be carried out, and doing so is harmless. */
  predicate Fits(r: Records, key: Key, o: Outcome) {
    && CanRun(r, key, o) && Harmless(r, key, o) && NamesOwn(r, key, o)
    && (o.Incorrect? && o.exhausted ==> MAX_ATTEMPTS <= r.challenges[o.challenge].attempts + 1)
  }

  predicate ActionFits(r: Records, raw: Raw, a: Prepared) {
    a.InboundAction? ==> Fits(r, raw.key, a.outcome)
  }

  /** The open challenge was signed under another key and the message would have to be judged against it. */
  predicate NeedsOldKey(r: Records, c: Config, raw: Raw, id: int) {
    && OpenFor(r, raw.key, id) && r.challenges[id].keyVersion != c.keyVersion
    && StateOf(r, raw.key) == VerifyPending
    && raw.kind == Inbound && CanReply(r, raw.key) && raw.verdict != Spam && raw.now < r.challenges[id].expiresAt
  }

  /** Preparation fails exactly for an answer to a challenge that was signed under another key version. */
  lemma PrepareFailsExactly(r: Records, c: Config, raw: Raw)
    requires Sound(r, false)
    ensures Prepare(r, c, raw).Err? <==> exists id :: id in r.challenges && NeedsOldKey(r, c, raw, id)
    ensures Prepare(r, c, raw).Err? ==> Prepare(r, c, raw).error == KeyVersionMismatch
  {
    if raw.key in r.conversations { assert ConversationSound(r, raw.key, false); }
    var active := ActiveChallenge(r, raw.key);
    if active.Some? {
      OpenHolder(r, raw.key, active.value, false);
      assert NeedsOldKey(r, c, raw, active.value) ==> Prepare(r, c, raw).Err?;
    }
  }

  /** A fresh decision fits the conversation it was made for. */
  lemma PrepareFits(r: Records, c: Config, raw: Raw)
    requires Inv(r) && Prepare(r, c, raw).Ok?
    ensures ActionFits(r, raw, Prepare(r, c, raw).value)
  {
    if raw.key in r.conversations { assert ConversationSound(r, raw.key, true); }
    if HasOpen(r, raw.key) { OpenHasRow(r, raw.key, true); }
    var active := ActiveChallenge(r, raw.key);
    if active.Some? { assert ChallengeSound(r, active.value, true); }
  }

  /** Also in a state an earlier replay has disturbed, a decision names only its own conversation's challenge. */
  lemma PrepareNamesOwn(r: Records, c: Config, raw: Raw)
    requires Sound(r, false) && Prepare(r, c, raw).Ok?
    ensures ActionNamesOwn(r, raw.key, Prepare(r, c, raw).value)
    ensures var a := Prepare(r, c, raw).value;
            a.InboundAction? && a.outcome.Incorrect? ==>
              && a.outcome.challenge in r.challenges
              && (a.outcome.exhausted ==> MAX_ATTEMPTS <= r.challenges[a.outcome.challenge].attempts + 1)
  {
    var active := ActiveChallenge(r, raw.key);
    if active.Some? { assert ChallengeSound(r, active.value, false); }
  }

  // ----- the handler, outcome by outcome -----------------------------------------------------

  /** After the outcome, `open` is the open challenge and the edited row agrees with it. */
  predicate EditSound(r: Records, key: Key, e: Edit, open: Option<int>, strict: bool) {
    && e.life.records == r.(challenges := e.life.records.challenges, nextChallenge := e.life.records.nextChallenge)
    && r.nextChallenge <= e.life.records.nextChallenge
    && OthersKept(r.challenges, e.life.records.challenges, key)
    && OwnSound(e.life.records.challenges, key, e.life.records.nextChallenge, open, strict)
    && RowSound(e.conversation, open, strict)
  }

  lemma {:induction false} BatchesKeepRecords(s: Life, update: int, key: Key, batches: seq<seq<int>>, from: nat)
    ensures var t := EnqueueBatches(s, update, key, batches, from); t.records == s.records && t.ledger == s.ledger
    decreases |batches|
  {
    if batches != [] {
      var first := Enqueue(s, update, key, from, DeleteMessages(batches[0]));
      BatchesKeepRecords(first, update, key, batches[1..], from + 1);
    }
  }

  lemma PurgeKeepsRecords(s: Life, raw: Raw)
    ensures Purge(s, raw).records == s.records && Purge(s, raw).ledger == s.ledger
  {
    var read := Enqueue(s, raw.update, raw.key, 0, ReadMessage(raw.message));
    BatchesKeepRecords(read, raw.update, raw.key, Split(Sorted(EligibleIds(read, raw.key))), 0);
  }

  lemma StartSound(s: Life, raw: Raw, o: Outcome, strict: bool)
    requires Sound(s.records, strict) && raw.key in s.records.conversations
    requires o.StartChallenge? && CanRun(s.records, raw.key, o)
    ensures var e := ApplyStart(s, raw, s.records.conversations[raw.key], o);
            e.Some? && EditSound(s.records, raw.key, e.value, Some(s.records.nextChallenge), strict)
  {
    var open := Localize(s.records, raw.key, strict);
    forall id | id in s.records.challenges ensures id < s.records.nextChallenge {
      assert ChallengeSound(s.records, id, strict);
    }
  }

  /** Closing a challenge of the conversation leaves the others as they are. */
  lemma ClosedSound(r: Records, key: Key, id: int, open: Option<int>, strict: bool)
    requires OwnSound(r.challenges, key, r.nextChallenge, open, strict)
    requires id in r.challenges ==> r.challenges[id].key == key
    ensures var t := CloseChallenge(r, id);
            && t == r.(challenges := t.challenges) && OthersKept(r.challenges, t.challenges, key)
            && OwnSound(t.challenges, key, t.nextChallenge, if open == Some(id) then None else open, strict)
  {
  }

  lemma ClosingSound(s: Life, raw: Raw, id: int, event: TransitionEvent, status: EditStatus, strict: bool)
    returns (open: Option<int>)
    requires Sound(s.records, strict) && raw.key in s.records.conversations
    requires event == VerificationSucceeded || event == ChallengeExpired
    requires s.records.conversations[raw.key].state == VerifyPending
    requires id in s.records.challenges ==> s.records.challenges[id].key == raw.key
    requires strict ==> OpenFor(s.records, raw.key, id)
    ensures var e := ApplyClosing(s, raw, s.records.conversations[raw.key], id, event, status);
            e.Some? && EditSound(s.records, raw.key, e.value, open, strict)
    ensures open.None? <==> OpenFor(s.records, raw.key, id)
  {
    var before := Localize(s.records, raw.key, strict);
    ClosedSound(s.records, raw.key, id, before, strict);
    open := if before == Some(id) then None else before;
  }

  lemma CountedSound(r: Records, key: Key, id: int, strict: bool)
    requires Sound(r, strict) && OpenFor(r, key, id) && r.challenges[id].attempts < MAX_ATTEMPTS
    ensures IncrementAttempts(r, id).Some?
    ensures var t := IncrementAttempts(r, id).value;
            && t == r.(challenges := t.challenges) && OthersKept(r.challenges, t.challenges, key)
            && OwnSound(t.challenges, key, t.nextChallenge, Some(id),
                        strict && r.challenges[id].attempts + 1 < MAX_ATTEMPTS)
  {
    OpenHolder(r, key, id, strict);
    var open := Localize(r, key, strict);
    assert open == Some(id);
  }

  /** Counting the last attempt and closing leaves no open challenge. */
  lemma ExhaustedSound(r: Records, key: Key, id: int, strict: bool)
    requires Sound(r, strict) && OpenFor(r, key, id) && r.challenges[id].attempts < MAX_ATTEMPTS
    ensures var u := CloseChallenge(IncrementAttempts(r, id).value, id);
            && OthersKept(r.challenges, u.challenges, key) && u == r.(challenges := u.challenges)
            && OwnSound(u.challenges, key, u.nextChallenge, None, strict)
  {
    CountedSound(r, key, id, strict);
    var roomy := strict && r.challenges[id].attempts + 1 < MAX_ATTEMPTS;
    ClosedSound(IncrementAttempts(r, id).value, key, id, Some(id), roomy);
  }

  lemma RetrySound(s: Life, raw: Raw, o: Outcome, strict: bool)
    requires Sound(s.records, strict) && raw.key in s.records.conversations && o.Incorrect? && !o.exhausted
    requires CanRun(s.records, raw.key, o) && NamesOwn(s.records, raw.key, o)
    requires strict ==> Harmless(s.records, raw.key, o)
    ensures var e := ApplyIncorrect(s, raw, s.records.conversations[raw.key], o);
            e.Some? && EditSound(s.records, raw.key, e.value, Some(o.challenge), strict)
  {
    var before := Localize(s.records, raw.key, strict);
    CountedSound(s.records, raw.key, o.challenge, strict);
  }

  lemma LastFailureSound(s: Life, raw: Raw, o: Outcome, strict: bool)
    requires Sound(s.records, strict) && raw.key in s.records.conversations && o.Incorrect? && o.exhausted
    requires CanRun(s.records, raw.key, o) && NamesOwn(s.records, raw.key, o)
    ensures var e := ApplyIncorrect(s, raw, s.records.conversations[raw.key], o);
            e.Some? && EditSound(s.records, raw.key, e.value, None, strict)
  {
    var before := Localize(s.records, raw.key, strict);
    CountedSound(s.records, raw.key, o.challenge, strict);
    ExhaustedSound(s.records, raw.key, o.challenge, strict);
  }

  lemma SpamSound(s: Life, raw: Raw, strict: bool)
    requires Sound(s.records, strict) && raw.key in s.records.conversations && CanRun(s.records, raw.key, SpamOutcome)
    ensures var e := ApplySpam(s, raw, s.records.conversations[raw.key]);
            e.Some? && EditSound(s.records, raw.key, e.value, None, strict)
  {
    var open := Localize(s.records, raw.key, strict);
    PurgeKeepsRecords(s.(records := CloseActive(s.records, raw.key)), raw);
  }

  lemma ApplyOutcomeSound(s: Life, raw: Raw, o: Outcome, strict: bool) returns (open: Option<int>)
    requires Sound(s.records, strict) && raw.key in s.records.conversations
    requires CanRun(s.records, raw.key, o) && NamesOwn(s.records, raw.key, o)
    requires strict ==> Harmless(s.records, raw.key, o)
    ensures var e := ApplyOutcome(s, raw, s.records.conversations[raw.key], o);
            e.Some? && EditSound(s.records, raw.key, e.value, open, strict)
  {
    open := None;
    match o
    case StartChallenge(_, _) =>
      StartSound(s, raw, o, strict);
      open := Some(s.records.nextChallenge);
    case Retain => open := Localize(s.records, raw.key, strict);
    case Correct(id) => open := ClosingSound(s, raw, id, VerificationSucceeded, EditSuccess, strict);
    case Expired(id) => open := ClosingSound(s, raw, id, ChallengeExpired, EditExpired, strict);
    case Incorrect(id, exhausted, _, _) =>
      if exhausted {
        LastFailureSound(s, raw, o, strict);
      } else {
        RetrySound(s, raw, o, strict);
        open := Some(id);
      }
    case SpamOutcome => SpamSound(s, raw, strict);
  }

  /** The handler refuses every other outcome. */
  lemma CannotRun(s: Life, raw: Raw, o: Outcome)
    requires raw.key in s.records.conversations && !CanRun(s.records, raw.key, o)
    ensures ApplyOutcome(s, raw, s.records.conversations[raw.key], o).None?
  {
  }

  /** If the state did not move, the block fields did not move either. */
  lemma UnsavedSame(s: Life, raw: Raw, c: Conversation, o: Outcome)
    requires ApplyOutcome(s, raw, c, o).Some? && ApplyOutcome(s, raw, c, o).value.conversation.state == c.state
    ensures var e := ApplyOutcome(s, raw, c, o).value.conversation;
            e.blockExpires == c.blockExpires && e.blockReason == c.blockReason
  {
  }

  lemma SaveEditSound(r: Records, e: Edit, raw: Raw, open: Option<int>, strict: bool)
    requires Sound(r, strict) && raw.key in r.conversations && EditSound(r, raw.key, e, open, strict)
    requires e.conversation.state == r.conversations[raw.key].state ==>
               e.conversation.blockExpires == r.conversations[raw.key].blockExpires
               && e.conversation.blockReason == r.conversations[raw.key].blockReason
    ensures Sound(SaveEdit(e, raw, r.conversations[raw.key]).records, strict)
  {
    var t := SaveEdit(e, raw, r.conversations[raw.key]).records;
    assert ConversationSound(r, raw.key, strict);
    LocalSound(r, t, raw.key, open, strict);
  }

  // ----- the handler, event by event -----------------------------------------------------------

  lemma ApplyInboundSound(s: Life, raw: Raw, a: Prepared, strict: bool)
    requires Sound(s.records, strict) && a.InboundAction? && raw.key.conn in s.records.rows
    requires CanRun(s.records, raw.key, a.outcome) && NamesOwn(s.records, raw.key, a.outcome)
    requires strict ==> Harmless(s.records, raw.key, a.outcome)
    ensures var t := ApplyInbound(s, raw, a); t.Some? && Sound(t.value.records, strict)
  {
    GetOrCreateSound(s.records, raw.key, raw.at, strict);
    var created := GetOrCreate(s.records, raw.key, raw.at).value;
    var annotated := Annotate(s.(records := created), raw, a);
    var c := created.conversations[raw.key];
    assert annotated.records == created;
    SameDecision(s.records, created, raw.key, a.outcome);
    var open := ApplyOutcomeSound(annotated, raw, a.outcome, strict);
    var e := ApplyOutcome(annotated, raw, c, a.outcome).value;
    if e.conversation.state == c.state { UnsavedSame(annotated, raw, c, a.outcome); }
    SaveEditSound(created, e, raw, open, strict);
  }

  /** Creating the row changes nothing a decision depends on. */
  lemma SameDecision(r: Records, t: Records, key: Key, o: Outcome)
    requires t.challenges == r.challenges && t.nextChallenge == r.nextChallenge && StateOf(t, key) == StateOf(r, key)
    ensures CanRun(t, key, o) == CanRun(r, key, o) && NamesOwn(t, key, o) == NamesOwn(r, key, o)
    ensures Harmless(t, key, o) == Harmless(r, key, o)
  {
    assert HasOpen(t, key) == HasOpen(r, key) by {
      assert forall id :: OpenFor(t, key, id) == OpenFor(r, key, id);
    }
  }

  lemma ApplyBlockedSound(s: Life, raw: Raw, destructive: bool, strict: bool)
    requires Sound(s.records, strict) && raw.key.conn in s.records.rows
    ensures var t := ApplyBlocked(s, raw, destructive); t.Some? && Sound(t.value.records, strict)
  {
    GetOrCreateSound(s.records, raw.key, raw.at, strict);
    var created := GetOrCreate(s.records, raw.key, raw.at).value;
    var open := Localize(created, raw.key, strict);
    var touched := Touch(created, raw.key, raw.at);
    SaveSound(created, touched, raw.key, created.conversations[raw.key].(updatedAt := raw.at), open, strict);
    PurgeKeepsRecords(RecordInbound(s.(records := touched), raw), raw);
  }

  lemma CloseActiveSound(r: Records, key: Key, c: Conversation, strict: bool)
    requires Sound(r, strict) && key in r.conversations && RowSound(c, None, strict)
    ensures Sound(Save(CloseActive(r, key), key, c), strict)
  {
    forall id | id in r.challenges ensures id < r.nextChallenge { assert ChallengeSound(r, id, strict); }
    SaveSound(r, Save(CloseActive(r, key), key, c), key, c, None, strict);
  }

  lemma ApplyManualSound(s: Life, raw: Raw, strict: bool)
    requires Sound(s.records, strict) && raw.key.conn in s.records.rows
    ensures var t := ApplyManual(s, raw); t.Some? && Sound(t.value.records, strict)
  {
    GetOrCreateSound(s.records, raw.key, raw.at, strict);
    var created := GetOrCreate(s.records, raw.key, raw.at).value;
    var c := created.conversations[raw.key];
    var event := if c.state == SpamSoftBlocked then OwnerInitiatedMessage else ManualOwnerReply;
    var moved := if c.state == Active then c else Move(c, event, raw.at).value;
    CloseActiveSound(created, raw.key, moved.(blockExpires := None, blockReason := None, updatedAt := raw.at), strict);
  }

  lemma ApplyDeletionSound(s: Life, raw: Raw, ids: seq<int>, strict: bool)
    requires Sound(s.records, strict) && raw.key.conn in s.records.rows
    ensures var t := ApplyDeletion(s, raw, ids); t.Some? && Sound(t.value.records, strict)
  {
    GetOrCreateSound(s.records, raw.key, raw.at, strict);
    var created := GetOrCreate(s.records, raw.key, raw.at).value;
    var c := created.conversations[raw.key];
    if c.state == Active {
      var open := Localize(created, raw.key, strict);
      var moved := Move(c, AllOwnerRepliesDeleted, raw.at).value;
      SaveSound(created, Save(created, raw.key, moved), raw.key, moved, open, strict);
    }
  }

  /** An applicable action is applied; applied harmlessly, it keeps the full invariant. */
  lemma ApplySound(s: Life, raw: Raw, a: Prepared, strict: bool)
    requires Sound(s.records, strict) && Applicable(s.records, raw.key, a) && ActionNamesOwn(s.records, raw.key, a)
    requires strict ==> ActionHarmless(s.records, raw.key, a)
    ensures var t := Apply(s, raw, a); t.Some? && Sound(t.value.records, strict)
  {
    match a
    case InboundAction(_, _, _) => ApplyInboundSound(s, raw, a, strict);
    case ActiveInbound =>
    case Ignore =>
    case BlockedInbound => ApplyBlockedSound(s, raw, true, strict);
    case BlockedFailOpen => ApplyBlockedSound(s, raw, false, strict);
    case ManualOwner => ApplyManualSound(s, raw, strict);
    case ServiceMessage => GetOrCreateSound(s.records, raw.key, raw.at, strict);
    case MessagesDeleted(ids) => ApplyDeletionSound(s, raw, ids, strict);
  }

  lemma Inapplicable(s: Life, raw: Raw, a: Prepared)
    requires Sound(s.records, false) && !Applicable(s.records, raw.key, a)
    ensures Apply(s, raw, a).None?
  {
    if raw.key.conn !in s.records.rows {
      assert raw.key in s.records.conversations ==> ConversationSound(s.records, raw.key, false);
    } else {
      InapplicableOutcome(s, raw, a);
    }
  }

  lemma InapplicableOutcome(s: Life, raw: Raw, a: Prepared)
    requires Sound(s.records, false) && raw.key.conn in s.records.rows
    requires a.InboundAction? && !CanRun(s.records, raw.key, a.outcome)
    ensures ApplyInbound(s, raw, a).None?
  {
    GetOrCreateSound(s.records, raw.key, raw.at, false);
    var created := GetOrCreate(s.records, raw.key, raw.at).value;
    SameDecision(s.records, created, raw.key, a.outcome);
    var annotated := Annotate(s.(records := created), raw, a);
    assert annotated.records == created;
    CannotRun(annotated, raw, a.outcome);
  }

  /** For every stored action and every state a run can reach: it is applied if and only if it is applicable. */
  lemma AppliedExactly(s: Life, raw: Raw, a: Prepared)
    requires Sound(s.records, false) && ActionNamesOwn(s.records, raw.key, a)
    ensures Apply(s, raw, a).Some? <==> Applicable(s.records, raw.key, a)
    ensures Apply(s, raw, a).Some? ==> Sound(Apply(s, raw, a).value.records, false)
  {
    if Applicable(s.records, raw.key, a) {
      ApplySound(s, raw, a, false);
    } else {
      Inapplicable(s, raw, a);
    }
  }

  // ----- late replays -----------------------------------------------------------------------------

  /**
   For every stored action that can be applied: it keeps the full invariant if
   and only if it is harmless.  The handler checks neither that `Correct` and
   `Expired` closed anything nor that `Incorrect` left an attempt.
   */
  lemma ReplayIsSafeExactly(s: Life, raw: Raw, a: Prepared)
    requires Inv(s.records) && ActionNamesOwn(s.records, raw.key, a) && Applicable(s.records, raw.key, a)
    ensures Apply(s, raw, a).Some?
    ensures Inv(Apply(s, raw, a).value.records) <==> ActionHarmless(s.records, raw.key, a)
  {
    InvIsSound(s.records, false);
    ApplySound(s, raw, a, false);
    if ActionHarmless(s.records, raw.key, a) {
      ApplySound(s, raw, a, true);
    } else if a.outcome.Incorrect? {
      ReplayOverruns(s, raw, a);
    } else {
      ReplayLeavesOpen(s, raw, a);
    }
  }

  lemma ReplayRecords(s: Life, raw: Raw, a: Prepared)
    requires raw.key in s.records.conversations && s.records.conversations[raw.key].state == VerifyPending
    requires a.InboundAction? && (a.outcome.Correct? || a.outcome.Expired?)
    ensures var t := ApplyInbound(s, raw, a);
            && t.Some? && t.value.records.challenges == CloseChallenge(s.records, a.outcome.challenge).challenges
            && raw.key in t.value.records.conversations
            && t.value.records.conversations[raw.key].state != VerifyPending
  {
    var annotated := Annotate(s, raw, a);
    assert annotated.records == s.records;
  }

  /** A late success or expiry that names another challenge leaves the open one behind. */
  lemma ReplayLeavesOpen(s: Life, raw: Raw, a: Prepared)
    requires Inv(s.records) && StateOf(s.records, raw.key) == VerifyPending
    requires a.InboundAction? && (a.outcome.Correct? || a.outcome.Expired?)
    requires !OpenFor(s.records, raw.key, a.outcome.challenge)
    ensures var t := ApplyInbound(s, raw, a); t.Some? && !Inv(t.value.records)
  {
    assert ConversationSound(s.records, raw.key, true);
    ReplayRecords(s, raw, a);
    var t := ApplyInbound(s, raw, a).value.records;
    OpenSurvives(s.records, raw.key, a.outcome.challenge);
    var open :| OpenFor(CloseChallenge(s.records, a.outcome.challenge), raw.key, open);
    assert OpenFor(t, raw.key, open);
    StaleOpen(t, raw.key);
  }

  lemma OpenSurvives(r: Records, key: Key, id: int)
    requires HasOpen(r, key) && !OpenFor(r, key, id)
    ensures exists open :: OpenFor(CloseChallenge(r, id), key, open)
  {
    var open :| open in r.challenges && OpenFor(r, key, open);
    assert OpenFor(CloseChallenge(r, id), key, open);
  }

  lemma StaleOpen(r: Records, key: Key)
    requires key in r.conversations && r.conversations[key].state != VerifyPending
    requires exists open :: open in r.challenges && OpenFor(r, key, open)
    ensures !Inv(r)
  {
    assert !ConversationSound(r, key, true);
  }

  /** A late failure that was not the last one when it was decided may use up the last attempt and leave it open. */
  lemma ReplayOverruns(s: Life, raw: Raw, a: Prepared)
    requires Inv(s.records) && ActionNamesOwn(s.records, raw.key, a) && Applicable(s.records, raw.key, a)
    requires a.InboundAction? && a.outcome.Incorrect? && !Harmless(s.records, raw.key, a.outcome)
    ensures var t := ApplyInbound(s, raw, a); t.Some? && !Inv(t.value.records)
  {
    var id := a.outcome.challenge;
    OpenHolder(s.records, raw.key, id, true);
    var annotated := Annotate(s, raw, a);
    assert annotated.records == s.records;
    var t := ApplyInbound(s, raw, a).value.records;
    assert id in t.challenges && !ChallengeSound(t, id, true);
  }

  // ----- retention and owner commands ----------------------------------------------------------

  lemma ExpireDueSound(r: Records, now: int, strict: bool)
    requires Sound(r, strict)
    ensures Sound(ExpireRecords(r, now), strict)
  {
    var t := ExpireRecords(r, now);
    forall key | key in t.conversations ensures ConversationSound(t, key, strict) {
      assert ConversationSound(r, key, strict);
      ExpireKey(r, now, key, strict);
    }
    forall id | id in t.challenges ensures ChallengeSound(t, id, strict) { assert ChallengeSound(r, id, strict); }
  }

  lemma ExpireKey(r: Records, now: int, key: Key, strict: bool)
    requires Sound(r, strict) && key in r.conversations
    ensures HasOpen(ExpireRecords(r, now), key) <==> HasOpen(r, key) && !DueFor(r, key, now)
    ensures strict && DueFor(r, key, now) ==> r.conversations[key].state == VerifyPending
  {
    var t := ExpireRecords(r, now);
    var open := Localize(r, key, strict);
    assert forall id :: OpenFor(t, key, id) <==> OpenFor(r, key, id) && !Due(r.challenges[id], now);
    assert DueFor(r, key, now) <==> open.Some? && Due(r.challenges[open.value], now) by {
      if DueFor(r, key, now) {
        var id :| id in r.challenges && r.challenges[id].key == key && Due(r.challenges[id], now);
        assert OpenFor(r, key, id);
      }
    }
    if open.Some? { assert OpenFor(r, key, open.value); }
  }

  lemma ForgetSound(r: Records, key: Key, now: int, strict: bool)
    requires Sound(r, strict) && key in r.conversations
    ensures Sound(Forget(r, key, now), strict)
  {
    assert ConversationSound(r, key, strict);
    LocalSound(r, Forget(r, key, now), key, None, strict);
  }

  lemma ResetRecords(s: Life, update: int, key: Key, now: int)
    requires Reset(s, update, key, now).Some?
    ensures key in s.records.conversations && Reset(s, update, key, now).value.records == Forget(s.records, key, now)
  {
    var ids := Sorted(EligibleIds(s, key) + Prompts(s.records, key));
    BatchesKeepRecords(ClearConversation(s, key, now), update, key, Split(ids), 0);
  }

  lemma ResetSound(s: Life, update: int, key: Key, now: int, strict: bool)
    requires Sound(s.records, strict) && Reset(s, update, key, now).Some?
    ensures Sound(Reset(s, update, key, now).value.records, strict)
  {
    ResetRecords(s, update, key, now);
    ForgetSound(s.records, key, now, strict);
  }

  lemma UnblockSound(r: Records, key: Key, now: int, strict: bool)
    requires Sound(r, strict) && Unblock(r, key, now).Some?
    ensures Sound(Unblock(r, key, now).value, strict)
  {
    var t := Unblock(r, key, now).value;
    assert ConversationSound(r, key, strict);
    forall id | id in r.challenges ensures id < r.nextChallenge { assert ChallengeSound(r, id, strict); }
    LocalSound(r, t, key, None, strict);
  }

  /** Rewriting delivery data of challenges leaves the invariant alone. */
  lemma PromptSound(r: Records, id: int, message: Option<int>, strict: bool)
    requires Sound(r, strict)
    ensures Sound(PromptDelivered(r, id, message), strict)
  {
    var t := PromptDelivered(r, id, message);
    forall key | key in t.conversations ensures ConversationSound(t, key, strict) {
      assert ConversationSound(r, key, strict);
      assert forall k :: OpenFor(r, key, k) <==> OpenFor(t, key, k);
    }
    forall k | k in t.challenges ensures ChallengeSound(t, k, strict) { assert ChallengeSound(r, k, strict); }
  }

  lemma DropSound(r: Records, conn: string, strict: bool)
    requires Sound(r, strict)
    ensures Sound(DropConnection(r, conn), strict)
  {
    var t := DropConnection(r, conn);
    forall key | key in t.conversations ensures ConversationSound(t, key, strict) {
      assert ConversationSound(r, key, strict);
      assert forall k :: OpenFor(r, key, k) <==> OpenFor(t, key, k);
    }
    forall k | k in t.challenges ensures ChallengeSound(t, k, strict) {
      assert ChallengeSound(r, k, strict);
      assert ConversationSound(r, r.challenges[k].key, strict);
    }
  }
}
