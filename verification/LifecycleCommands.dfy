/** What owner commands, retention and the other workers do to conversations, row by row. */
module LifecycleCommands {
  import opened Prelude
  import opened Batches
  import opened Lifecycle
  import opened LifecycleInvariant
  import opened LifecycleEffects
  import opened LifecycleSystem
  import opened LifecycleRuns
  import opened LifecycleLaws
  import opened LifecycleDecisions
  import ArithmeticStore

  // ----- owner commands ----------------------------------------------------------------------

  /** A command takes effect once, and is known from then on, also when it is refused. */
  lemma CommandRunsOnce(s: Sys, c: Config, update: int, command: Command)
    ensures var t := Next(s, c, OwnerCommand(update, command));
            if update in s.pending || update in s.applied then t == s
            else && t.pending == s.pending && t.applied == s.applied + {update}
                 && t.life == CommandEffect(s.life, update, command).GetOr(s.life)
  {
  }

  /** Every row of the conversation is gone; only its version number lives on. */
  predicate Renewed(before: Conversation, after: Conversation, now: int) {
    after == Conversation(New, now, None, None, 0, before.version + 1)
  }

  /**
   A reset is refused exactly for a chat without a usable connection or a row.
   Otherwise it forgets exactly this chat: row renewed, challenges and ledger
   rows gone, unfinished actions replaced by the delete requests.
   */
  lemma ResetsExactly(s: Life, update: int, key: Key, now: int)
    ensures var r, t := s.records, CommandEffect(s, update, ResetChat(key, now));
            if key.conn !in r.visible || key !in r.conversations then t.None?
            else && t.Some? && key in t.value.records.conversations
                 && Renewed(r.conversations[key], t.value.records.conversations[key], now)
                 && SettingsKept(r, t.value.records) && t.value.records.nextChallenge == r.nextChallenge
                 && t.value.records.conversations
                    == r.conversations[key := t.value.records.conversations[key]]
                 && (forall id :: id in t.value.records.challenges <==>
                       id in r.challenges && r.challenges[id].key != key)
                 && (forall id :: id in t.value.records.challenges ==>
                       t.value.records.challenges[id] == r.challenges[id])
                 && (forall k :: k in t.value.ledger <==> k in s.ledger && k.0 != key)
                 && (forall k :: k in t.value.ledger ==> t.value.ledger[k] == s.ledger[k])
                 && (forall q :: q in s.outbox && !(s.outbox[q].key == key && s.outbox[q].unfinished) ==>
                       q in t.value.outbox && t.value.outbox[q] == s.outbox[q])
                 && (forall q :: q in t.value.outbox && q !in s.outbox ==>
                       q.ByUpdate? && q.update == update && q.name == NDelete && q.key == key)
  {
    if key.conn in s.records.visible && key in s.records.conversations {
      var cleared := ClearConversation(s, key, now);
      var batches := Split(Sorted(EligibleIds(s, key) + Prompts(s.records, key)));
      BatchesKeepRecords(cleared, update, key, batches, 0);
      BatchesKeep(cleared, update, key, batches, 0);
      var t := EnqueueBatches(cleared, update, key, batches, 0);
      forall q | q in t.outbox && q !in s.outbox
        ensures q.ByUpdate? && q.update == update && q.name == NDelete && q.key == key
      {
        BatchesAddOnly(cleared, update, key, batches, 0, q);
      }
    }
  }

  /** What a reset deletes on Telegram's side: the known deletable messages and the prompts of every challenge. */
  lemma ResetDeletesExactly(s: Life, key: Key, message: int)
    ensures message in EligibleIds(s, key) <==>
              (key, message) in s.ledger && s.ledger[(key, message)].eligible && !s.ledger[(key, message)].deleted
    ensures message in Prompts(s.records, key) <==>
              exists id :: id in s.records.challenges && s.records.challenges[id].key == key
                           && s.records.challenges[id].prompt == Some(message)
  {
    if message in EligibleIds(s, key) {
      var k :| k in s.ledger && k.0 == key && s.ledger[k].eligible && !s.ledger[k].deleted && k.1 == message;
      assert k == (key, message);
    }
    if (key, message) in s.ledger && s.ledger[(key, message)].eligible && !s.ledger[(key, message)].deleted {
      var k := (key, message);
      assert k.0 == key && k.1 == message;
    }
    if id :| id in s.records.challenges && s.records.challenges[id].key == key
             && s.records.challenges[id].prompt == Some(message)
    {
      assert s.records.challenges[id].prompt.value == message;
    }
  }

  /**
   An unblock is refused exactly for a chat that is not blocked or not in use;
   otherwise the chat is NEW with expiry and reason cleared, its block count
   kept, and no challenge open.
   */
  lemma UnblocksExactly(s: Life, update: int, key: Key, now: int)
    ensures var r, t := s.records, CommandEffect(s, update, UnblockChat(key, now));
            if key.conn !in r.visible || key !in r.conversations
               || r.conversations[key].state !in {TempSoftBlocked, SpamSoftBlocked}
            then t.None?
            else && t.Some? && key in t.value.records.conversations
                 && t.value == s.(records := t.value.records)
                 && SettingsKept(r, t.value.records) && t.value.records.nextChallenge == r.nextChallenge
                 && t.value.records.conversations
                    == r.conversations[key := Conversation(New, now, None, None, r.conversations[key].blockCount,
                                                           r.conversations[key].version + 1)]
                 && AllShut(r.challenges, t.value.records.challenges, key)
  {
  }

  /** Dry-run may always be entered, and left only with a usable connection that has every right. */
  lemma SwitchesExactly(s: Life, update: int, conn: string, deleteSent: bool, dryRun: bool)
    ensures var r, t := s.records, CommandEffect(s, update, SwitchDryRun(conn, deleteSent, dryRun));
            if dryRun || (conn in r.visible && deleteSent && r.visible[conn] == Visible(true, true, true, true))
            then t == Some(s.(records := r.(destructive := Some(!dryRun)))) else t.None?
  {
  }

  // ----- retention ---------------------------------------------------------------------------

  predicate ChallengeExpires(r: Records, id: int, now: int)
    requires id in r.challenges
  {
    r.challenges[id].open && r.challenges[id].expiresAt <= now
  }

  /** Exactly the challenges that are open and over are closed. */
  predicate ChallengesExpire(r: Records, t: Records, now: int) {
    && t.challenges.Keys == r.challenges.Keys && t.nextChallenge == r.nextChallenge
    && forall id :: id in r.challenges ==>
         if ChallengeExpires(r, id, now) then Shut(r.challenges[id], t.challenges[id])
         else t.challenges[id] == r.challenges[id]
  }

  predicate OwnExpires(r: Records, key: Key, now: int) {
    exists id :: id in r.challenges && r.challenges[id].key == key && ChallengeExpires(r, id, now)
  }

  /** Exactly the chats under verification whose challenge is over, and those whose block is, become NEW. */
  predicate ConversationsExpire(r: Records, t: Records, now: int) {
    && t.conversations.Keys == r.conversations.Keys
    && forall key :: key in r.conversations ==>
         var before, after := r.conversations[key], t.conversations[key];
         if before.state == VerifyPending && OwnExpires(r, key, now)
         then after == before.(state := New, updatedAt := now, version := before.version + 1)
         else if before.state == TempSoftBlocked && before.blockExpires.Some? && before.blockExpires.value <= now
         then after == Conversation(New, now, None, None, before.blockCount, before.version + 1)
         else after == before
  }

  lemma ExpiresExactly(s: Life, now: int)
    ensures var t := ExpireDue(s, now);
            && t == s.(records := t.records, outbox := t.outbox) && SettingsKept(s.records, t.records)
            && ChallengesExpire(s.records, t.records, now) && ConversationsExpire(s.records, t.records, now)
  {
    forall key | key in s.records.conversations
      ensures OwnExpires(s.records, key, now) <==> DueFor(s.records, key, now)
    {
      if id :| id in s.records.challenges && s.records.challenges[id].key == key && Due(s.records.challenges[id], now) {
        assert ChallengeExpires(s.records, id, now);
      }
      if id :| id in s.records.challenges && s.records.challenges[id].key == key
               && ChallengeExpires(s.records, id, now)
      {
        assert Due(s.records.challenges[id], now);
      }
    }
  }

  /** The expired prompt is to be edited if it was delivered and its request is still on record. */
  predicate EditIsDue(s: Life, id: int, now: int) {
    && id in s.records.challenges && ChallengeExpires(s.records, id, now) && s.records.challenges[id].prompt.Some?
    && exists q :: q in s.outbox && s.outbox[q].payload == SendChallenge(id)
  }

  lemma ExpiryEditsExactly(s: Life, now: int, q: Idempotency)
    ensures var t := ExpireDue(s, now);
            && (q in t.outbox <==> q in s.outbox || (q.ByRetention? && EditIsDue(s, q.challenge, now)))
            && (q in s.outbox ==> t.outbox[q] == s.outbox[q])
            && (q in t.outbox && q !in s.outbox ==>
                  t.outbox[q] == Queued(s.records.challenges[q.challenge].key,
                                        EditChallenge(q.challenge, EditExpired), true))
  {
  }

  /** Old rows of the other side go, unless an unfinished delete request names them; owner replies stay. */
  lemma PurgesExactly(s: Sys, c: Config, cutoff: int, k: (Key, int))
    requires k in s.life.ledger
    ensures var t, m := Next(s, c, PurgeMessages(cutoff)), s.life.ledger[k];
            && t == s.(life := s.life.(ledger := t.life.ledger))
            && (k in t.life.ledger ==> t.life.ledger[k] == m)
            && (k !in t.life.ledger <==>
                  && m.inbound && !m.ownerReply && m.sentAt <= cutoff
                  && !exists q :: q in s.life.outbox && s.life.outbox[q].unfinished
                                  && s.life.outbox[q].key == k.0 && s.life.outbox[q].payload.DeleteMessages?
                                  && k.1 in s.life.outbox[q].payload.messages)
  {
    if q :| q in s.life.outbox && s.life.outbox[q].unfinished && s.life.outbox[q].key == k.0
            && s.life.outbox[q].payload.DeleteMessages? && k.1 in s.life.outbox[q].payload.messages
    {
      var m := k.1;
      assert m in s.life.outbox[q].payload.messages;
      assert (s.life.outbox[q].key, m) in ProtectedIds(s.life.outbox);
      assert (s.life.outbox[q].key, m) == k;
    }
  }

  // ----- other workers -------------------------------------------------------------------------

  /** The delivery of a prompt is noted on its own challenge and never reopens it. */
  lemma PromptNotedExactly(s: Sys, c: Config, id: int, message: Option<int>)
    ensures var t := Next(s, c, PromptOutcome(id, message));
            if id !in s.life.records.challenges then t == s
            else
              var before := s.life.records.challenges[id];
              var noted := before.(prompt := if message.Some? then message else before.prompt,
                                   delivery := if !before.open then before.delivery
                                               else if message.Some? then DeliverySent else DeliveryUncertain);
              t == s.(life := s.life.(records := s.life.records.(challenges :=
                                        s.life.records.challenges[id := noted])))
  {
  }

  /** The upgrade succeeds exactly if every open challenge has the current key, or the legacy one and can be read. */
  lemma KeyUpgradeExactly(r: Records, c: Config, canonical: set<int>)
    ensures var t := UpgradeKeys(r, c, canonical);
            && (t.Some? <==>
                  && c.keyVersion == ArithmeticStore.CURRENT_KEY_VERSION
                  && forall id :: id in r.challenges && r.challenges[id].open ==>
                       || r.challenges[id].keyVersion == ArithmeticStore.CURRENT_KEY_VERSION
                       || (r.challenges[id].keyVersion == ArithmeticStore.LEGACY_KEY_VERSION && id in canonical))
            && (t.Some? ==>
                  && t.value == r.(challenges := t.value.challenges) && t.value.challenges.Keys == r.challenges.Keys
                  && forall id :: id in r.challenges ==>
                       t.value.challenges[id]
                       == if r.challenges[id].open then r.challenges[id].(keyVersion := c.keyVersion)
                          else r.challenges[id])
  {
  }

  /** Deleting a connection deletes exactly what is stored under it, and no other step touches the connections. */
  lemma RemovalExactly(s: Sys, c: Config, conn: string)
    ensures var t := Next(s, c, RemoveConnection(conn));
            var r, u := s.life.records, t.life.records;
            && t == s.(life := s.life.(records := u, ledger := t.life.ledger))
            && u.rows == r.rows - {conn} && u.visible == r.visible - {conn}
            && u.destructive == r.destructive && u.nextChallenge == r.nextChallenge
            && (forall k :: k in u.conversations <==> k in r.conversations && k.conn != conn)
            && (forall k :: k in u.conversations ==> u.conversations[k] == r.conversations[k])
            && (forall id :: id in u.challenges <==> id in r.challenges && r.challenges[id].key.conn != conn)
            && (forall id :: id in u.challenges ==> u.challenges[id] == r.challenges[id])
            && (forall k :: k in t.life.ledger <==> k in s.life.ledger && k.0.conn != conn)
            && (forall k :: k in t.life.ledger ==> t.life.ledger[k] == s.life.ledger[k])
  {
  }

  // ----- recording and applying ------------------------------------------------------------------

  /** An update is decided once, as the preparer decides it then, and applied once, if it can be. */
  lemma EventStepsExactly(s: Sys, c: Config, raw: Raw)
    ensures var t := Next(s, c, RecordEvent(raw));
            if raw.update in s.pending || raw.update in s.applied || Prepare(s.life.records, c, raw).Err? then t == s
            else
              && var d := Decision(raw, Prepare(s.life.records, c, raw).value,
                                   MayDestroy(s.life.records, c, raw.key.conn));
                 t == s.(pending := s.pending[raw.update := d])
    ensures raw.update in s.pending ==>
              var t, d := Next(s, c, ApplyEvent(raw.update)), s.pending[raw.update];
              var life := Apply(s.life, d.raw, d.action);
              if life.None? then t == s
              else t == Sys(life.value, s.pending - {raw.update}, s.applied + {raw.update})
  {
  }

  /** The small steps of the other workers. */
  lemma OtherStepsExactly(s: Sys, c: Config, step: Step)
    requires CanStep(s, step)
    ensures var t := Next(s, c, step);
            var r := s.life.records;
            match step
            case FailEvent(_) => t == s
            case PurgeHistory(us) => t == s.(pending := s.pending - us, applied := s.applied - us)
            case PurgeActions(qs) => t == s.(life := s.life.(outbox := s.life.outbox - qs))
            case ForceDryRun => t == s.(life := s.life.(records := r.(destructive := Some(false))))
            case FinishAction(q) =>
              t == s.(life := s.life.(outbox := s.life.outbox[q := s.life.outbox[q].(unfinished := false)]))
            case ChangeVisibility(v) => t == s.(life := s.life.(records := r.(visible := v)))
            case AddConnection(conn) => t == s.(life := s.life.(records := r.(rows := r.rows + {conn})))
            case UpgradeChallenges(canonical) =>
              t == s.(life := s.life.(records := UpgradeKeys(r, c, canonical).GetOr(r)))
            case ExpirePass(now) => t == s.(life := ExpireDue(s.life, now))
            case _ => true
  {
  }
}
