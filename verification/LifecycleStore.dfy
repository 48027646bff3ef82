/**
 The lifecycle tables as the handler, the retention service and the owner
 commands update them, statement by statement.  Each method is proved to compute
 the state change that `Lifecycle` specifies.
 */
module LifecycleStore {
  import opened Prelude
  import opened Batches
  import opened Lifecycle
  import opened LifecycleInvariant

  class LifecycleTables {
    var rows: set<string>
    var visible: map<string, Visible>
    var destructive: Option<bool>
    var conversations: map<Key, Conversation>
    var challenges: map<int, Challenge>
    var nextChallenge: int
    var ledger: map<(Key, int), Message>
    var outbox: map<Idempotency, Queued>

    ghost function Rec(): Records
      reads this
    {
      Records(rows, visible, destructive, conversations, challenges, nextChallenge)
    }

    ghost function View(): Life
      reads this
    {
      Life(Rec(), ledger, outbox)
    }

    /** Conversations and challenges agree. */
    ghost predicate Valid()
      reads this
    {
      Inv(Rec())
    }

    constructor (s: Life)
      ensures View() == s
    {
      rows, visible, destructive := s.records.rows, s.records.visible, s.records.destructive;
      conversations, challenges := s.records.conversations, s.records.challenges;
      nextChallenge, ledger, outbox := s.records.nextChallenge, s.ledger, s.outbox;
    }

    method Read() returns (s: Life)
      ensures s == View()
    {
      s := Life(Records(rows, visible, destructive, conversations, challenges, nextChallenge), ledger, outbox);
    }

    method Rollback(s: Life)
      modifies this
      ensures View() == s
    {
      rows, visible, destructive := s.records.rows, s.records.visible, s.records.destructive;
      conversations, challenges := s.records.conversations, s.records.challenges;
      nextChallenge, ledger, outbox := s.records.nextChallenge, s.ledger, s.outbox;
    }

    // ----- single statements ------------------------------------------------------------

    method GetOrCreateConversation(key: Key, at: int) returns (c: Option<Conversation>)
      modifies this`conversations
      ensures c.Some? == GetOrCreate(old(Rec()), key, at).Some?
      ensures Rec() == GetOrCreate(old(Rec()), key, at).GetOr(old(Rec()))
      ensures c.Some? ==> key in conversations && conversations[key] == c.value
    {
      if key !in conversations {
        if key.conn !in rows {
          return None;
        }
        conversations := conversations[key := FRESH_CONVERSATION.(updatedAt := at)];
      }
      return Some(conversations[key]);
    }

    method Record(key: Key, id: int, m: Message)
      modifies this`ledger
      ensures View() == RecordMessage(old(View()), key, id, m)
    {
      if (key, id) !in ledger {
        ledger := ledger[(key, id) := m];
      }
    }

    /** Writes the row back only if nobody else did in between. */
    method SaveConversation(key: Key, c: Conversation, expected: nat) returns (ok: bool)
      modifies this`conversations
      ensures ok == (key in old(conversations) && old(conversations)[key].version == expected)
      ensures conversations == if ok then old(conversations)[key := c.(version := expected + 1)] else old(conversations)
    {
      if key !in conversations || conversations[key].version != expected {
        return false;
      }
      conversations := conversations[key := c.(version := expected + 1)];
      return true;
    }

    method EnqueueAction(update: int, key: Key, batch: nat, p: Payload)
      modifies this`outbox
      ensures View() == Enqueue(old(View()), update, key, batch, p)
    {
      var id := ByUpdate(update, NameOf(p), key, batch);
      if id !in outbox {
        outbox := outbox[id := Queued(key, p, true)];
      }
    }

    method Close(id: int) returns (closed: bool)
      modifies this`challenges
      ensures Rec() == CloseChallenge(old(Rec()), id)
      ensures closed == (id in old(challenges) && old(challenges)[id].open)
    {
      closed := id in challenges && challenges[id].open;
      if closed {
        challenges := challenges[id := challenges[id].(open := false, delivery := DeliveryClosed)];
      }
    }

    method CloseActiveChallenge(key: Key)
      modifies this`challenges
      ensures Rec() == CloseActive(old(Rec()), key)
    {
      challenges := map id | id in challenges ::
        if challenges[id].open && challenges[id].key == key then Closed(challenges[id]) else challenges[id];
    }

    method Increment(id: int) returns (ok: bool)
      modifies this`challenges
      ensures ok == IncrementAttempts(old(Rec()), id).Some?
      ensures Rec() == IncrementAttempts(old(Rec()), id).GetOr(old(Rec()))
    {
      if id !in challenges || !challenges[id].open || MAX_ATTEMPTS <= challenges[id].attempts {
        return false;
      }
      challenges := challenges[id := challenges[id].(attempts := challenges[id].attempts + 1)];
      return true;
    }

    /** The partial unique index rejects a second open challenge. */
    method Create(key: Key, keyVersion: int, expiresAt: int) returns (id: Option<int>)
      modifies this`challenges, this`nextChallenge
      ensures id.Some? == CreateChallenge(old(Rec()), key, keyVersion, expiresAt).Some?
      ensures id.Some? ==> id.value == old(nextChallenge)
      ensures Rec() == CreateChallenge(old(Rec()), key, keyVersion, expiresAt).GetOr(old(Rec()))
    {
      if exists k :: k in challenges && challenges[k].open && challenges[k].key == key {
        assert HasOpen(Rec(), key) by {
          var k :| k in challenges && challenges[k].open && challenges[k].key == key;
          assert OpenFor(Rec(), key, k);
        }
        return None;
      }
      var allotted := nextChallenge;
      challenges := challenges[allotted := Challenge(key, keyVersion, expiresAt, 0, None, DeliveryPending, true)];
      nextChallenge := nextChallenge + 1;
      return Some(allotted);
    }

    /** The deletable messages, in ascending order. */
    method EligibleDeletionIds(key: Key) returns (ids: seq<int>)
      ensures ids == Sorted(EligibleIds(View(), key))
    {
      ids := SortedIds(set k | k in ledger && k.0 == key && ledger[k].eligible && !ledger[k].deleted :: k.1);
    }

    method EnqueueDeletions(update: int, key: Key, ids: seq<int>)
      modifies this`outbox
      ensures View() == EnqueueBatches(old(View()), update, key, Split(ids), 0)
    {
      var batches := DeleteMessageBatches(ids);
      for i := 0 to |batches|
        invariant Rec() == old(Rec()) && ledger == old(ledger)
        invariant EnqueueBatches(View(), update, key, batches[i..], i)
                  == EnqueueBatches(old(View()), update, key, batches, 0)
      {
        EnqueueAction(update, key, i, DeleteMessages(batches[i]));
        assert batches[i..][1..] == batches[i + 1..];
      }
    }

    // ----- outcomes: the conversation is edited in memory ------------------------------------

    method StartVerification(raw: Raw, c: Conversation, o: Outcome) returns (r: Option<Conversation>)
      requires o.StartChallenge?
      modifies this`challenges, this`nextChallenge, this`outbox
      ensures r.Some? ==> r.value.version == c.version
      ensures r.Some? == ApplyStart(old(View()), raw, c, o).Some?
      ensures r.Some? ==> Edit(View(), r.value) == ApplyStart(old(View()), raw, c, o).value
    {
      var id := Create(raw.key, o.keyVersion, o.expiresAt);
      var next := Transition(c.state, SafeFirstInbound);
      if id.None? || next.None? {
        return None;
      }
      EnqueueAction(raw.update, raw.key, 0, SendChallenge(id.value));
      return Some(c.(state := next.value, updatedAt := raw.at));
    }

    /** The result of the close is not looked at. */
    method FinishChallenge(raw: Raw, c: Conversation, id: int, event: TransitionEvent, status: EditStatus)
      returns (r: Option<Conversation>)
      modifies this`challenges, this`nextChallenge, this`outbox
      ensures r.Some? ==> r.value.version == c.version
      ensures r.Some? == ApplyClosing(old(View()), raw, c, id, event, status).Some?
      ensures r.Some? ==> Edit(View(), r.value) == ApplyClosing(old(View()), raw, c, id, event, status).value
    {
      var _ := Close(id);
      var next := Transition(c.state, event);
      if next.None? {
        return None;
      }
      EnqueueAction(raw.update, raw.key, 0, EditChallenge(id, status));
      return Some(c.(state := next.value, updatedAt := raw.at));
    }

    method CountIncorrect(raw: Raw, c: Conversation, o: Outcome) returns (r: Option<Conversation>)
      requires o.Incorrect?
      modifies this`challenges, this`nextChallenge, this`outbox
      ensures r.Some? ==> r.value.version == c.version
      ensures r.Some? == ApplyIncorrect(old(View()), raw, c, o).Some?
      ensures r.Some? ==> Edit(View(), r.value) == ApplyIncorrect(old(View()), raw, c, o).value
    {
      var counted := Increment(o.challenge);
      if !counted {
        return None;
      }
      if !o.exhausted {
        EnqueueAction(raw.update, raw.key, 0, EditChallenge(o.challenge, EditIncorrect(o.remaining)));
        return Some(c);
      }
      var _ := Close(o.challenge);
      r := Exhaust(raw, c, o);
    }

    method Exhaust(raw: Raw, c: Conversation, o: Outcome) returns (r: Option<Conversation>)
      requires o.Incorrect?
      modifies this`outbox
      ensures r.Some? ==> r.value.version == c.version
      ensures r.Some? == ApplyExhausted(old(View()), raw, c, o).Some?
      ensures r.Some? ==> Edit(View(), r.value) == ApplyExhausted(old(View()), raw, c, o).value
    {
      var conversation := c;
      if o.blockExpires.Some? {
        var next := Transition(conversation.state, VerificationExhausted);
        if next.None? {
          return None;
        }
        conversation := conversation.(state := next.value, updatedAt := raw.at);
        conversation := conversation.(blockExpires := o.blockExpires);
        conversation := conversation.(blockReason := Some(BecauseExhausted));
        conversation := conversation.(blockCount := conversation.blockCount + 1);
      } else {
        var next := Transition(conversation.state, ChallengeExpired);
        if next.None? {
          return None;
        }
        conversation := conversation.(state := next.value, updatedAt := raw.at);
        EnqueueAction(raw.update, raw.key, 1, ProposedBlock);
      }
      var status := if o.blockExpires.Some? then EditExhausted else EditExhaustedDryRun;
      EnqueueAction(raw.update, raw.key, 0, EditChallenge(o.challenge, status));
      return Some(conversation);
    }

    method ReadAndDelete(raw: Raw)
      modifies this`outbox
      ensures View() == Purge(old(View()), raw)
    {
      EnqueueAction(raw.update, raw.key, 0, ReadMessage(raw.message));
      var ids := EligibleDeletionIds(raw.key);
      EnqueueDeletions(raw.update, raw.key, ids);
    }

    method BlockSpam(raw: Raw, c: Conversation) returns (r: Option<Conversation>)
      modifies this`challenges, this`nextChallenge, this`outbox
      ensures r.Some? ==> r.value.version == c.version
      ensures r.Some? == ApplySpam(old(View()), raw, c).Some?
      ensures r.Some? ==> Edit(View(), r.value) == ApplySpam(old(View()), raw, c).value
    {
      var next := Transition(c.state, SpamDetected);
      if next.None? {
        return None;
      }
      var conversation := c.(state := next.value, updatedAt := raw.at);
      conversation := conversation.(blockReason := Some(BecauseSpam));
      conversation := conversation.(blockCount := conversation.blockCount + 1);
      CloseActiveChallenge(raw.key);
      ReadAndDelete(raw);
      return Some(conversation);
    }

    method RunOutcome(raw: Raw, c: Conversation, o: Outcome) returns (r: Option<Conversation>)
      modifies this`challenges, this`nextChallenge, this`outbox
      ensures r.Some? ==> r.value.version == c.version
      ensures r.Some? == ApplyOutcome(old(View()), raw, c, o).Some?
      ensures r.Some? ==> Edit(View(), r.value) == ApplyOutcome(old(View()), raw, c, o).value
    {
      match o
      case StartChallenge(_, _) => r := StartVerification(raw, c, o);
      case Retain => r := Some(c);
      case Correct(id) => r := FinishChallenge(raw, c, id, VerificationSucceeded, EditSuccess);
      case Incorrect(_, _, _, _) => r := CountIncorrect(raw, c, o);
      case Expired(id) => r := FinishChallenge(raw, c, id, ChallengeExpired, EditExpired);
      case SpamOutcome => r := BlockSpam(raw, c);
    }

    // ----- events ----------------------------------------------------------------------------

    method Note(raw: Raw, a: Prepared)
      requires a.InboundAction?
      modifies this`ledger, this`outbox
      ensures View() == Annotate(old(View()), raw, a)
    {
      Record(raw.key, raw.message, Message(true, false, raw.at, false, true));
      if a.dryRunSpam {
        EnqueueAction(raw.update, raw.key, 0, ProposedSpam);
      }
      if a.verdict == DetectorFailed {
        EnqueueAction(raw.update, raw.key, 0, OwnerAlert);
      }
    }

    method HandleInbound(raw: Raw, a: Prepared) returns (ok: bool)
      requires a.InboundAction?
      modifies this
      ensures ok == ApplyInbound(old(View()), raw, a).Some?
      ensures ok ==> View() == ApplyInbound(old(View()), raw, a).value
    {
      var loaded := GetOrCreateConversation(raw.key, raw.at);
      if loaded.None? {
        return false;
      }
      var before := loaded.value;
      Note(raw, a);
      var edited := RunOutcome(raw, before, a.outcome);
      if edited.None? {
        return false;
      }
      SaveIfMoved(raw, before, edited.value);
      return true;
    }

    method SaveIfMoved(raw: Raw, before: Conversation, edited: Conversation)
      requires raw.key in conversations && conversations[raw.key].version == edited.version
      modifies this`conversations
      ensures View() == SaveEdit(Edit(old(View()), edited), raw, before)
    {
      if edited.state != before.state || edited.updatedAt != raw.at {
        var _ := SaveConversation(raw.key, edited.(updatedAt := raw.at), edited.version);
      }
    }

    method HandleBlocked(raw: Raw, deleting: bool) returns (ok: bool)
      modifies this
      ensures ok == ApplyBlocked(old(View()), raw, deleting).Some?
      ensures ok ==> View() == ApplyBlocked(old(View()), raw, deleting).value
    {
      var loaded := GetOrCreateConversation(raw.key, raw.at);
      if loaded.None? {
        return false;
      }
      Record(raw.key, raw.message, Message(true, false, raw.at, false, true));
      ok := SaveConversation(raw.key, loaded.value.(updatedAt := raw.at), loaded.value.version);
      if deleting {
        ReadAndDelete(raw);
      }
    }

    method HandleManualOwner(raw: Raw) returns (ok: bool)
      modifies this
      ensures ok == ApplyManual(old(View()), raw).Some?
      ensures ok ==> View() == ApplyManual(old(View()), raw).value
    {
      var loaded := GetOrCreateConversation(raw.key, raw.at);
      if loaded.None? {
        return false;
      }
      var conversation := loaded.value;
      Record(raw.key, raw.message, Message(false, true, raw.at, false, true));
      CloseActiveChallenge(raw.key);
      if conversation.state != Active {
        var event := if conversation.state == SpamSoftBlocked then OwnerInitiatedMessage else ManualOwnerReply;
        var next := Transition(conversation.state, event);
        if next.None? {
          return false;
        }
        conversation := conversation.(state := next.value);
      }
      conversation := conversation.(blockExpires := None, blockReason := None, updatedAt := raw.at);
      ok := SaveConversation(raw.key, conversation, conversation.version);
    }

    method HandleService(raw: Raw) returns (ok: bool)
      modifies this
      ensures ok == ApplyService(old(View()), raw).Some?
      ensures ok ==> View() == ApplyService(old(View()), raw).value
    {
      var loaded := GetOrCreateConversation(raw.key, raw.at);
      ok := loaded.Some?;
      if ok {
        Record(raw.key, raw.message, Message(false, false, raw.at, false, true));
      }
    }

    /** One statement per deleted message. */
    method MarkMessagesDeleted(key: Key, ids: seq<int>)
      modifies this`ledger
      ensures View() == MarkDeleted(old(View()), key, ids)
    {
      ghost var before := ledger;
      for i := 0 to |ids|
        invariant ledger == map k | k in before :: if k.0 == key && k.1 in ids[..i] then before[k].(deleted := true)
                  else before[k]
      {
        assert ids[..i + 1] == ids[..i] + [ids[i]];
        if (key, ids[i]) in ledger {
          ledger := ledger[(key, ids[i]) := ledger[(key, ids[i])].(deleted := true)];
        }
      }
      assert ids[..|ids|] == ids;
    }

    method HandleDeletion(raw: Raw, ids: seq<int>) returns (ok: bool)
      modifies this
      ensures ok == ApplyDeletion(old(View()), raw, ids).Some?
      ensures ok ==> View() == ApplyDeletion(old(View()), raw, ids).value
    {
      var loaded := GetOrCreateConversation(raw.key, raw.at);
      if loaded.None? {
        return false;
      }
      MarkMessagesDeleted(raw.key, ids);
      var conversation := loaded.value;
      if conversation.state == Active
         && !(exists k :: k in ledger && k.0 == raw.key && ledger[k].ownerReply && !ledger[k].deleted)
      {
        var next := Transition(conversation.state, AllOwnerRepliesDeleted);
        if next.None? {
          return false;
        }
        conversation := conversation.(state := next.value, updatedAt := raw.at);
        ok := SaveConversation(raw.key, conversation, conversation.version);
        return;
      }
      return true;
    }

    /** Applies one recorded event in one transaction; an error restores every table. */
    method ApplyEvent(raw: Raw, a: Prepared) returns (ok: bool)
      modifies this
      ensures ok == Apply(old(View()), raw, a).Some?
      ensures View() == if ok then Apply(old(View()), raw, a).value else old(View())
      ensures old(Sound(Rec(), false)) && ActionNamesOwn(old(Rec()), raw.key, a) ==>
                ok == Applicable(old(Rec()), raw.key, a)
      ensures old(Valid()) && ActionNamesOwn(old(Rec()), raw.key, a) ==>
                Valid() || (ok && !ActionHarmless(old(Rec()), raw.key, a))
    {
      if Sound(Rec(), false) && ActionNamesOwn(Rec(), raw.key, a) { AppliedExactly(View(), raw, a); }
      if Inv(Rec()) && ActionNamesOwn(Rec(), raw.key, a) { SafelyApplied(View(), raw, a); }
      var saved := Read();
      match a {
        case InboundAction(_, _, _) => ok := HandleInbound(raw, a);
        case ActiveInbound => ok := true;
        case Ignore => ok := true;
        case BlockedInbound => ok := HandleBlocked(raw, true);
        case BlockedFailOpen => ok := HandleBlocked(raw, false);
        case ManualOwner => ok := HandleManualOwner(raw);
        case ServiceMessage => ok := HandleService(raw);
        case MessagesDeleted(ids) => ok := HandleDeletion(raw, ids);
      }
      if !ok {
        Rollback(saved);
      }
    }

    // ----- owner commands -------------------------------------------------------------------------

    method ResetConversation(update: int, key: Key, now: int) returns (ok: bool)
      modifies this
      ensures ok == Reset(old(View()), update, key, now).Some?
      ensures View() == if ok then Reset(old(View()), update, key, now).value else old(View())
      ensures old(Valid()) ==> Valid()
    {
      if Inv(Rec()) && Reset(View(), update, key, now).Some? { ResetSound(View(), update, key, now, true); }
      if key.conn !in visible || key !in conversations {
        return false;
      }
      var eligible := set k | k in ledger && k.0 == key && ledger[k].eligible && !ledger[k].deleted :: k.1;
      var prompts := set id | id in challenges && challenges[id].key == key && challenges[id].prompt.Some?
                       :: challenges[id].prompt.value;
      var ids := SortedIds(eligible + prompts);
      ForgetConversation(key, now);
      EnqueueDeletions(update, key, ids);
      return true;
    }

    method ForgetConversation(key: Key, now: int)
      requires key in conversations
      modifies this`outbox, this`challenges, this`ledger, this`conversations
      ensures View() == ClearConversation(old(View()), key, now)
    {
      outbox := map q | q in outbox && !(outbox[q].key == key && outbox[q].unfinished) :: outbox[q];
      challenges := map id | id in challenges && challenges[id].key != key :: challenges[id];
      ledger := map k | k in ledger && k.0 != key :: ledger[k];
      conversations := conversations[key := Conversation(New, now, None, None, 0, conversations[key].version + 1)];
    }

    method UnblockConversation(key: Key, now: int) returns (ok: bool)
      modifies this
      ensures ok == Unblock(old(Rec()), key, now).Some?
      ensures View() == if ok then old(View()).(records := Unblock(old(Rec()), key, now).value) else old(View())
      ensures old(Valid()) ==> Valid()
    {
      if Inv(Rec()) && Unblock(Rec(), key, now).Some? { UnblockSound(Rec(), key, now, true); }
      if key.conn !in visible || key !in conversations {
        return false;
      }
      var c := conversations[key];
      if c.state != TempSoftBlocked && c.state != SpamSoftBlocked {
        return false;
      }
      conversations := conversations[key :=
        c.(state := New, blockExpires := None, blockReason := None, updatedAt := now, version := c.version + 1)];
      CloseActiveChallenge(key);
      return true;
    }

    // ----- retention ----------------------------------------------------------------------------------

    /** Expires due challenges, then lifts due temporary blocks, and counts both. */
    method ExpireDueState(now: int) returns (expired: nat, lifted: nat)
      modifies this
      ensures View() == ExpireDue(old(View()), now)
      ensures expired == |DueIds(old(Rec()), now)|
      ensures lifted == |DueBlocks(old(conversations), now)|
      ensures old(Valid()) ==> Valid()
    {
      if Inv(Rec()) { ExpireDueSound(Rec(), now, true); }
      var due := set id | id in challenges && Due(challenges[id], now);
      assert due == DueIds(Rec(), now);
      ExpirySequence(View(), now);
      ExpiryAgrees(View(), due, now);
      SameDueBlocks(Rec(), due, now);
      expired := |due|;
      var ids := SortedIds(due);
      ExpireChallenges(ids, now);
      lifted := LiftDueBlocks(now);
    }

    /** Walks the due challenges in ID order. */
    method ExpireChallenges(ids: seq<int>, now: int)
      modifies this`challenges, this`conversations, this`outbox
      ensures View() == ExpireEach(old(View()), ids, now)
    {
      for i := 0 to |ids|
        invariant ExpireEach(View(), ids[i..], now) == ExpireEach(old(View()), ids, now)
      {
        ExpireChallenge(ids[i], now);
        assert ids[i..][1..] == ids[i + 1..];
      }
    }

    method ExpireChallenge(id: int, now: int)
      modifies this`challenges, this`conversations, this`outbox
      ensures View() == ExpireOne(old(View()), id, now)
    {
      var closed := Close(id);
      if !closed {
        return;
      }
      var challenge := challenges[id];
      if challenge.key in conversations && conversations[challenge.key].state == VerifyPending {
        var c := conversations[challenge.key];
        conversations := conversations[challenge.key := c.(state := New, updatedAt := now, version := c.version + 1)];
      }
      if challenge.prompt.Some? && PromptIn(outbox, id) && ByRetention(id) !in outbox {
        outbox := outbox[ByRetention(id) := Queued(challenge.key, EditChallenge(id, EditExpired), true)];
      }
    }

    method LiftDueBlocks(now: int) returns (lifted: nat)
      modifies this`conversations
      ensures conversations == Lifted(old(conversations), now)
      ensures lifted == |DueBlocks(old(conversations), now)|
    {
      var due := set key | key in conversations && BlockDue(conversations[key], now);
      assert due == DueBlocks(conversations, now);
      conversations := map key | key in conversations ::
        if key in due then Unblocked(conversations[key], now) else conversations[key];
      return |due|;
    }

    /** Old inbound rows go, unless a queued delete request still names them. */
    method PurgeLedger(cutoff: int) returns (purged: nat)
      modifies this`ledger
      ensures ledger == old(ledger) - Purgeable(old(ledger), old(outbox), cutoff)
      ensures purged == |Purgeable(old(ledger), old(outbox), cutoff)|
    {
      var named := ProtectedIds(outbox);
      var victims := set k | k in ledger && ledger[k].inbound && !ledger[k].ownerReply && ledger[k].sentAt <= cutoff
        && k !in named;
      purged := |victims|;
      var rest := victims;
      while rest != {}
        invariant rest <= victims
        invariant ledger == old(ledger) - (victims - rest)
        decreases |rest|
      {
        var k :| k in rest;
        ledger := ledger - {k};
        rest := rest - {k};
      }
    }
  }

  /** A harmless application keeps conversations and challenges in agreement. */
  lemma SafelyApplied(s: Life, raw: Raw, a: Prepared)
    requires Inv(s.records) && ActionNamesOwn(s.records, raw.key, a)
    ensures Apply(s, raw, a).Some? && ActionHarmless(s.records, raw.key, a) ==> Inv(Apply(s, raw, a).value.records)
  {
    InvIsSound(s.records, false);
    AppliedExactly(s, raw, a);
    if Apply(s, raw, a).Some? && ActionHarmless(s.records, raw.key, a) { ApplySound(s, raw, a, true); }
  }

  // ----- helpers -----------------------------------------------------------------------------------

  method SortedIds(s: set<int>) returns (ids: seq<int>)
    ensures ids == Sorted(s)
  {
    ids := [];
    var rest := s;
    while rest != {}
      invariant ids + Sorted(rest) == Sorted(s)
      decreases |rest|
    {
      var low := Minimum(rest);
      ids := ids + [low];
      rest := rest - {low};
    }
  }

  function ClosedIn(challenges: map<int, Challenge>, done: set<int>): map<int, Challenge> {
    map id | id in challenges :: if id in done then Closed(challenges[id]) else challenges[id]
  }

  predicate TouchedBy(r: Records, done: set<int>, key: Key) {
    exists id :: id in done && id in r.challenges && r.challenges[id].key == key
  }

  function RevertedIn(r: Records, done: set<int>, now: int): map<Key, Conversation> {
    map key | key in r.conversations ::
      var c := r.conversations[key];
      if c.state == VerifyPending && TouchedBy(r, done, key)
      then c.(state := New, updatedAt := now, version := c.version + 1) else c
  }

  function EditsIn(s: Life, done: set<int>): map<Idempotency, Queued> {
    map id | id in done && id in s.records.challenges && s.records.challenges[id].prompt.Some?
             && PromptQueued(s, id) && ByRetention(id) !in s.outbox
      :: ByRetention(id) := Queued(s.records.challenges[id].key, EditChallenge(id, EditExpired), true)
  }

  predicate PromptIn(outbox: map<Idempotency, Queued>, id: int) {
    exists q :: q in outbox && outbox[q].payload == SendChallenge(id)
  }

  predicate BlockDue(c: Conversation, now: int) {
    c.state == TempSoftBlocked && c.blockExpires.Some? && c.blockExpires.value <= now
  }

  function Unblocked(c: Conversation, now: int): Conversation {
    c.(state := New, blockExpires := None, blockReason := None, updatedAt := now, version := c.version + 1)
  }

  function Lifted(conversations: map<Key, Conversation>, now: int): map<Key, Conversation> {
    map key | key in conversations ::
      if BlockDue(conversations[key], now) then Unblocked(conversations[key], now) else conversations[key]
  }

  function DueBlocks(conversations: map<Key, Conversation>, now: int): set<Key> {
    set key | key in conversations && BlockDue(conversations[key], now)
  }

  /** Expired challenges leave temporary blocks alone. */
  lemma SameDueBlocks(r: Records, done: set<int>, now: int)
    ensures DueBlocks(RevertedIn(r, done, now), now) == DueBlocks(r.conversations, now)
  {
  }

  function DueIds(r: Records, now: int): set<int> {
    set id | id in r.challenges && Due(r.challenges[id], now)
  }

  function RevertOne(conversations: map<Key, Conversation>, key: Key, now: int): map<Key, Conversation> {
    if key in conversations && conversations[key].state == VerifyPending
    then conversations[key :=
           conversations[key].(state := New, updatedAt := now, version := conversations[key].version + 1)]
    else conversations
  }

  function QueueExpiryEdit(outbox: map<Idempotency, Queued>, id: int, challenge: Challenge): map<Idempotency, Queued> {
    if challenge.prompt.Some? && PromptIn(outbox, id) && ByRetention(id) !in outbox
    then outbox[ByRetention(id) := Queued(challenge.key, EditChallenge(id, EditExpired), true)]
    else outbox
  }

  /** One iteration of the expiry pass. */
  function ExpireOne(s: Life, id: int, now: int): Life {
    if id !in s.records.challenges || !s.records.challenges[id].open then s else
    var challenge := s.records.challenges[id];
    s.(records := s.records.(challenges := s.records.challenges[id := Closed(challenge)],
                             conversations := RevertOne(s.records.conversations, challenge.key, now)),
       outbox := QueueExpiryEdit(s.outbox, id, challenge))
  }

  function ExpireEach(s: Life, ids: seq<int>, now: int): Life
    decreases |ids|
  {
    if ids == [] then s else ExpireEach(ExpireOne(s, ids[0], now), ids[1..], now)
  }

  /** The tables after the challenges in `done` have been expired, in any order. */
  function ExpiredSoFar(s: Life, done: set<int>, now: int): Life {
    s.(records := s.records.(challenges := ClosedIn(s.records.challenges, done),
                             conversations := RevertedIn(s.records, done, now)),
       outbox := s.outbox + EditsIn(s, done))
  }

  lemma NothingExpiredYet(s: Life, now: int)
    ensures ExpiredSoFar(s, {}, now) == s
  {
    assert ClosedIn(s.records.challenges, {}) == s.records.challenges;
    assert forall key :: !TouchedBy(s.records, {}, key);
    assert RevertedIn(s.records, {}, now) == s.records.conversations;
    NoEditsYet(s);
  }

  lemma NoEditsYet(s: Life)
    ensures s.outbox + EditsIn(s, {}) == s.outbox
  {
    assert EditsIn(s, {}) == map[];
  }

  lemma ExpireOneMore(s: Life, done: set<int>, id: int, now: int)
    requires id in s.records.challenges && s.records.challenges[id].open && id !in done
    ensures ExpireOne(ExpiredSoFar(s, done, now), id, now) == ExpiredSoFar(s, done + {id}, now)
  {
    CloseOneMore(s.records.challenges, done, id);
    RevertOneMore(s.records, done, id, now);
    EditOneMore(s, done, id);
  }

  lemma {:induction false} ExpireTheRest(s: Life, done: set<int>, rest: set<int>, now: int)
    requires done !! rest && forall id :: id in rest ==> id in s.records.challenges && s.records.challenges[id].open
    ensures ExpireEach(ExpiredSoFar(s, done, now), Sorted(rest), now) == ExpiredSoFar(s, done + rest, now)
    decreases |rest|
  {
    if rest == {} {
      assert done + rest == done;
    } else {
      var id := Minimum(rest);
      ExpireOneMore(s, done, id, now);
      ExpireTheRest(s, done + {id}, rest - {id}, now);
      assert done + {id} + (rest - {id}) == done + rest;
      assert Sorted(rest) == [id] + Sorted(rest - {id});
      assert Sorted(rest)[1..] == Sorted(rest - {id});
    }
  }

  lemma ExpirySequence(s: Life, now: int)
    ensures ExpireEach(s, Sorted(DueIds(s.records, now)), now) == ExpiredSoFar(s, DueIds(s.records, now), now)
  {
    NothingExpiredYet(s, now);
    ExpireTheRest(s, {}, DueIds(s.records, now), now);
    assert {} + DueIds(s.records, now) == DueIds(s.records, now);
  }

  lemma CloseOneMore(challenges: map<int, Challenge>, done: set<int>, id: int)
    requires id in challenges && id !in done
    ensures ClosedIn(challenges, done + {id}) == ClosedIn(challenges, done)[id := Closed(challenges[id])]
    ensures ClosedIn(challenges, done)[id] == challenges[id]
  {
  }

  lemma RevertOneMore(r: Records, done: set<int>, id: int, now: int)
    requires id in r.challenges
    ensures RevertedIn(r, done + {id}, now) == RevertOne(RevertedIn(r, done, now), r.challenges[id].key, now)
  {
    forall key ensures TouchedBy(r, done + {id}, key) <==> TouchedBy(r, done, key) || key == r.challenges[id].key {
      if key == r.challenges[id].key { assert id in done + {id}; }
      if TouchedBy(r, done, key) {
        var k :| k in done && k in r.challenges && r.challenges[k].key == key;
        assert k in done + {id};
      }
    }
  }

  lemma EditOneMore(s: Life, done: set<int>, id: int)
    requires id in s.records.challenges && id !in done
    ensures s.outbox + EditsIn(s, done + {id})
            == QueueExpiryEdit(s.outbox + EditsIn(s, done), id, s.records.challenges[id])
  {
    PromptsStayQueued(s, done, id);
    NotYetEdited(s, done, id);
    EditsGrow(s, done, id);
    QueueOne(s.outbox, EditsIn(s, done), EditsIn(s, done + {id}), id, s.records.challenges[id]);
  }

  lemma NotYetEdited(s: Life, done: set<int>, id: int)
    requires id !in done
    ensures ByRetention(id) !in EditsIn(s, done)
  {
  }

  lemma QueueOne(outbox: map<Idempotency, Queued>, before: map<Idempotency, Queued>, after: map<Idempotency, Queued>,
                 id: int, challenge: Challenge)
    requires ByRetention(id) !in before
    requires after == if challenge.prompt.Some? && PromptIn(outbox + before, id) && ByRetention(id) !in outbox
                      then before[ByRetention(id) := Queued(challenge.key, EditChallenge(id, EditExpired), true)]
                        else before
    ensures outbox + after == QueueExpiryEdit(outbox + before, id, challenge)
  {
  }

  lemma EditsGrow(s: Life, done: set<int>, id: int)
    requires id in s.records.challenges && id !in done
    ensures EditsIn(s, done + {id}) ==
            if s.records.challenges[id].prompt.Some? && PromptQueued(s, id) && ByRetention(id) !in s.outbox
            then EditsIn(s, done)[ByRetention(id) :=
                   Queued(s.records.challenges[id].key, EditChallenge(id, EditExpired), true)]
            else EditsIn(s, done)
  {
    assert forall k :: k in done + {id} <==> k in done || k == id;
  }

  /** Queued expiry edits never look like prompts, so the lookup by challenge is unaffected. */
  lemma PromptsStayQueued(s: Life, done: set<int>, id: int)
    ensures PromptIn(s.outbox + EditsIn(s, done), id) == PromptQueued(s, id)
  {
    var after := s.outbox + EditsIn(s, done);
    if PromptQueued(s, id) {
      var q :| q in s.outbox && s.outbox[q].payload == SendChallenge(id);
      assert q in after && after[q].payload == SendChallenge(id);
    }
    if PromptIn(after, id) {
      var q :| q in after && after[q].payload == SendChallenge(id);
      assert q !in EditsIn(s, done);
      assert s.outbox[q].payload == SendChallenge(id);
    }
  }

  lemma ExpiryAgrees(s: Life, done: set<int>, now: int)
    requires done == DueIds(s.records, now)
    ensures var t := ExpiredSoFar(s, done, now);
            t.(records := t.records.(conversations := Lifted(t.records.conversations, now))) == ExpireDue(s, now)
  {
    assert ClosedIn(s.records.challenges, done) == ExpireRecords(s.records, now).challenges;
    assert EditsIn(s, done) == ExpiryEdits(s, now);
    RevertedAgrees(s.records, done, now);
  }

  lemma RevertedAgrees(r: Records, done: set<int>, now: int)
    requires done == DueIds(r, now)
    ensures Lifted(RevertedIn(r, done, now), now) == ExpireRecords(r, now).conversations
  {
    forall key | key in r.conversations
      ensures Lifted(RevertedIn(r, done, now), now)[key] == ExpireConversation(r, key, now)
    {
      if DueFor(r, key, now) {
        var id :| id in r.challenges && r.challenges[id].key == key && Due(r.challenges[id], now);
        assert id in done;
      }
    }
  }
}
