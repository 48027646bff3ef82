/** Which decision the preparer makes, exactly when. */
module LifecycleDecisions {
  import opened Prelude
  import opened Lifecycle
  import opened LifecycleInvariant
  import Arithmetic

  /** Destructive mode is on, by command or by default, and the connection may read and delete. */
  predicate MayDestroy(r: Records, c: Config, conn: string) {
    && (r.destructive == Some(true) || (r.destructive.None? && c.destructiveDefault))
    && conn in r.visible && r.visible[conn].enabled && r.visible[conn].read && r.visible[conn].deleteAll
  }

  predicate MayReply(r: Records, conn: string) {
    conn in r.visible && r.visible[conn].enabled && r.visible[conn].reply
  }

  /** A new or edited message of the other side, in a chat whose connection is in use. */
  predicate Incoming(r: Records, raw: Raw) {
    raw.key.conn in r.visible && (raw.kind == Inbound || raw.kind == EditedInbound)
  }

  predicate InState(r: Records, key: Key, states: set<ConversationState>) {
    (if key in r.conversations then r.conversations[key].state else New) in states
  }

  /** The message is held against this open challenge. */
  predicate HeldAgainst(r: Records, raw: Raw, id: int) {
    && InState(r, raw.key, {VerifyPending}) && raw.verdict != Spam && MayReply(r, raw.key.conn)
    && id in r.challenges && r.challenges[id].open && r.challenges[id].key == raw.key
  }

  /** An original message within the challenge's two minutes, which is an answer. */
  predicate AnswersInTime(r: Records, raw: Raw, id: int)
    requires id in r.challenges
  {
    raw.kind == Inbound && raw.now < r.challenges[id].expiresAt
  }

  /** The outcome decided for an incoming message in an unblocked, inactive chat. */
  ghost predicate OutcomeDecided(r: Records, c: Config, raw: Raw, o: Outcome) {
    var spam := raw.verdict == Spam && MayDestroy(r, c, raw.key.conn);
    && (o == SpamOutcome <==> spam)
    && (o.StartChallenge? <==> !spam && InState(r, raw.key, {New}) && MayReply(r, raw.key.conn))
    && (o.StartChallenge? ==> o.keyVersion == c.keyVersion && o.expiresAt == raw.now + 120)
    && (forall id :: o == Expired(id) <==> HeldAgainst(r, raw, id) && r.challenges[id].expiresAt <= raw.now)
    && (forall id :: o == Correct(id) <==>
          HeldAgainst(r, raw, id) && AnswersInTime(r, raw, id) && raw.answer == Arithmetic.AnswerKind.Correct)
    && (o.Incorrect? <==> exists id :: HeldAgainst(r, raw, id) && AnswersInTime(r, raw, id)
                                       && raw.answer != Arithmetic.AnswerKind.Correct)
    && (o.Incorrect? ==>
          && HeldAgainst(r, raw, o.challenge)
          && var attempts := r.challenges[o.challenge].attempts;
             && (o.exhausted <==> 2 <= attempts)
             && o.remaining == (if attempts < 2 then 2 - attempts else 0)
             && o.blockExpires == (if 2 <= attempts && MayDestroy(r, c, raw.key.conn)
                                   then Some(raw.now + 24 * 60 * 60) else None))
    && (o == Retain <==>
          && !spam
          && (|| InState(r, raw.key, {VerifiedWaitingOwner})
              || !MayReply(r, raw.key.conn)
              || (raw.verdict == Spam && InState(r, raw.key, {VerifyPending}))
              || exists id :: HeldAgainst(r, raw, id) && raw.kind == EditedInbound
                              && raw.now < r.challenges[id].expiresAt))
  }

  lemma OutcomeDecidedExactly(r: Records, c: Config, raw: Raw)
    requires Sound(r, false) && Incoming(r, raw) && InState(r, raw.key, {New, VerifyPending, VerifiedWaitingOwner})
    requires Prepare(r, c, raw).Ok?
    ensures var a := Prepare(r, c, raw).value;
            && a.InboundAction? && a.verdict == raw.verdict
            && (a.dryRunSpam <==> raw.verdict == Spam && !MayDestroy(r, c, raw.key.conn))
            && OutcomeDecided(r, c, raw, a.outcome)
  {
    if raw.key in r.conversations { assert ConversationSound(r, raw.key, false); }
    var active := ActiveChallenge(r, raw.key);
    if active.Some? {
      OpenHolder(r, raw.key, active.value, false);
      assert HeldAgainst(r, raw, active.value)
          <==> InState(r, raw.key, {VerifyPending}) && raw.verdict != Spam && MayReply(r, raw.key.conn);
      forall id | HeldAgainst(r, raw, id) ensures id == active.value { assert OpenFor(r, raw.key, id); }
    } else {
      forall id ensures !HeldAgainst(r, raw, id) { assert !OpenFor(r, raw.key, id); }
    }
  }

  /**
   Every decision of the preparer has exactly one cause: the connection, the kind
   of the event, the state of the chat, and mode and rights.
   */
  lemma PreparesExactly(r: Records, c: Config, raw: Raw)
    requires Sound(r, false) && Prepare(r, c, raw).Ok?
    ensures var a := Prepare(r, c, raw).value;
            var known := raw.key.conn in r.visible;
            && (a == Ignore <==> !known)
            && (a == ManualOwner <==> known && raw.kind == ManualOwnerMessage)
            && (a == ServiceMessage <==> known && (raw.kind == BotMessage || raw.kind == ImplicitOwnerMessage))
            && (a.MessagesDeleted? <==> known && raw.kind == Deletion)
            && (a.MessagesDeleted? ==> a.ids == raw.deleted)
            && (a == ActiveInbound <==> Incoming(r, raw) && InState(r, raw.key, {Active}))
            && (a == BlockedInbound <==> Incoming(r, raw) && InState(r, raw.key, {TempSoftBlocked, SpamSoftBlocked})
                                         && MayDestroy(r, c, raw.key.conn))
            && (a == BlockedFailOpen <==> Incoming(r, raw) && InState(r, raw.key, {TempSoftBlocked, SpamSoftBlocked})
                                          && !MayDestroy(r, c, raw.key.conn))
            && (a.InboundAction? <==>
                  Incoming(r, raw) && InState(r, raw.key, {New, VerifyPending, VerifiedWaitingOwner}))
            && (a.InboundAction? ==>
                  && a.verdict == raw.verdict
                  && (a.dryRunSpam <==> raw.verdict == Spam && !MayDestroy(r, c, raw.key.conn))
                  && OutcomeDecided(r, c, raw, a.outcome))
  {
    if Incoming(r, raw) && InState(r, raw.key, {New, VerifyPending, VerifiedWaitingOwner}) {
      OutcomeDecidedExactly(r, c, raw);
    }
  }
}
