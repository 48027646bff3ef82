/** Why a conversation changes its state, and what must have gone before, over whole runs. */
module LifecycleMoves {
  import opened Prelude
  import opened Batches
  import opened Lifecycle
  import opened LifecycleInvariant
  import opened LifecycleEffects
  import opened LifecycleSystem
  import opened LifecycleRuns
  import opened LifecycleDecisions
  import opened LifecycleLaws
  import Arithmetic

  // ----- every move has its cause ---------------------------------------------------------

  /** Where an event leads. */
  function Target(event: TransitionEvent): ConversationState {
    match event
    case SafeFirstInbound => VerifyPending
    case SpamDetected => SpamSoftBlocked
    case VerificationSucceeded => VerifiedWaitingOwner
    case ManualOwnerReply => Active
    case OwnerInitiatedMessage => Active
    case VerificationExhausted => TempSoftBlocked
    case _ => New
  }

  /** Where an event is allowed. */
  function Sources(event: TransitionEvent): set<ConversationState> {
    match event
    case SafeFirstInbound => {New}
    case SpamDetected => {New, VerifyPending, VerifiedWaitingOwner}
    case ManualOwnerReply => {New, VerifyPending, VerifiedWaitingOwner, TempSoftBlocked}
    case AllOwnerRepliesDeleted => {Active}
    case TempBlockExpired => {TempSoftBlocked}
    case OwnerUnblocked => {SpamSoftBlocked}
    case OwnerInitiatedMessage => {SpamSoftBlocked}
    case _ => {VerifyPending}
  }

  /** Each event has one target, and is refused outside its sources. */
  lemma TransitionsExactly(state: ConversationState, event: TransitionEvent)
    ensures Transition(state, event) == if state in Sources(event) then Some(Target(event)) else None
  {
  }

  /** The decision that moves a conversation from one state to another. */
  predicate Decided(a: Prepared, from: ConversationState, to: ConversationState) {
    match to
    case New =>
      || (a.MessagesDeleted? && from == Active)
      || (a.InboundAction? && from == VerifyPending
          && (a.outcome.Expired? || (a.outcome.Incorrect? && a.outcome.exhausted && a.outcome.blockExpires.None?)))
    case VerifyPending => a.InboundAction? && a.outcome.StartChallenge? && from == New
    case VerifiedWaitingOwner => a.InboundAction? && a.outcome.Correct? && from == VerifyPending
    case Active => a == ManualOwner
    case TempSoftBlocked =>
      && a.InboundAction? && a.outcome.Incorrect? && a.outcome.exhausted && a.outcome.blockExpires.Some?
      && from == VerifyPending
    case SpamSoftBlocked =>
      a.InboundAction? && a.outcome == SpamOutcome && from in {New, VerifyPending, VerifiedWaitingOwner}
  }

  predicate ChallengeDue(r: Records, key: Key, now: int) {
    exists id :: id in r.challenges && r.challenges[id].key == key && r.challenges[id].open
                 && r.challenges[id].expiresAt <= now
  }

  /** The step that moves the conversation, and from where. */
  predicate Causes(s: Sys, step: Step, key: Key, from: ConversationState, to: ConversationState) {
    match step
    case ApplyEvent(u) => u in s.pending && s.pending[u].raw.key == key && Decided(s.pending[u].action, from, to)
    case OwnerCommand(_, ResetChat(k, _)) => k == key && to == New
    case OwnerCommand(_, UnblockChat(k, _)) => k == key && to == New && from in {TempSoftBlocked, SpamSoftBlocked}
    case ExpirePass(now) =>
      && to == New && key in s.life.records.conversations
      && (|| (from == VerifyPending && ChallengeDue(s.life.records, key, now))
          || (from == TempSoftBlocked && s.life.records.conversations[key].blockExpires.Some?
              && s.life.records.conversations[key].blockExpires.value <= now))
    case RemoveConnection(conn) => key.conn == conn && to == New
    case _ => false
  }

  function StateIn(r: Records, key: Key): ConversationState {
    if key in r.conversations then r.conversations[key].state else New
  }

  lemma AppliedMove(s: Life, raw: Raw, a: Prepared, key: Key)
    requires Apply(s, raw, a).Some? && StateIn(Apply(s, raw, a).value.records, key) != StateIn(s.records, key)
    ensures key == raw.key && Decided(a, StateIn(s.records, key), StateIn(Apply(s, raw, a).value.records, key))
  {
    ConversationExactly(s, raw, a);
  }

  lemma CommandMove(s: Sys, c: Config, step: Step, key: Key)
    requires CanStep(s, step) && step.OwnerCommand?
    requires StateIn(Next(s, c, step).life.records, key) != StateIn(s.life.records, key)
    ensures Causes(s, step, key, StateIn(s.life.records, key), StateIn(Next(s, c, step).life.records, key))
  {
    if step.command.ResetChat? && CommandEffect(s.life, step.update, step.command).Some? {
      ResetRecords(s.life, step.update, step.command.key, step.command.now);
    }
  }

  /** Whatever step changes the state of a conversation is one of those that may, and moves it where it may. */
  lemma MovesHaveCauses(s: Sys, c: Config, step: Step, key: Key)
    requires CanStep(s, step) && StateIn(Next(s, c, step).life.records, key) != StateIn(s.life.records, key)
    ensures Causes(s, step, key, StateIn(s.life.records, key), StateIn(Next(s, c, step).life.records, key))
  {
    match step
    case ApplyEvent(u) =>
      if AfterApplying(s, u).Some? { AppliedMove(s.life, s.pending[u].raw, s.pending[u].action, key); }
    case OwnerCommand(_, _) => CommandMove(s, c, step, key);
    case _ =>
  }

  /** An owner command leaves every conversation in its state or in NEW. */
  lemma CommandsOnlyRenew(s: Sys, c: Config, step: Step, key: Key)
    requires CanStep(s, step) && step.OwnerCommand?
    ensures StateIn(Next(s, c, step).life.records, key) in {StateIn(s.life.records, key), New}
  {
    if StateIn(Next(s, c, step).life.records, key) != StateIn(s.life.records, key) { MovesHaveCauses(s, c, step, key); }
  }

  // ----- where recorded decisions come from -------------------------------------------------

  /** This step recorded the decision, as the preparer made it in that state. */
  predicate Records(s: Sys, c: Config, step: Step, d: Decision) {
    && step == RecordEvent(d.raw) && d.raw.update !in s.pending && d.raw.update !in s.applied
    && Prepare(s.life.records, c, d.raw) == Ok(d.action)
  }

  predicate StillPending(s: Sys, d: Decision) {
    d.raw.update in s.pending && s.pending[d.raw.update] == d
  }

  lemma PendingStep(s: Sys, c: Config, step: Step, d: Decision)
    requires SysInv(s) && CanStep(s, step) && StillPending(Next(s, c, step), d)
    ensures StillPending(s, d) || Records(s, c, step, d)
  {
    if step.RecordEvent? {
      if !StillPending(s, d) { assert step.raw.update == d.raw.update; }
    } else {
      PendingShrinks(s, c, step);
    }
  }

  lemma PendingAt(c: Config, states: seq<Sys>, steps: seq<Step>, k: nat, d: Decision)
    requires IsRun(c, states, steps) && k < |steps| && StillPending(states[k + 1], d)
    ensures StillPending(states[k], d) || Records(states[k], c, steps[k], d)
  {
    RunInv(c, states, steps, k);
    PendingStep(states[k], c, steps[k], d);
  }

  /** A pending decision was recorded in this run, or before it began. */
  lemma {:induction false} Recorded(c: Config, states: seq<Sys>, steps: seq<Step>, n: nat, d: Decision)
    returns (i: Option<nat>)
    requires IsRun(c, states, steps) && n < |states| && StillPending(states[n], d)
    ensures i.None? ==> StillPending(states[0], d)
    ensures i.Some? ==> i.value < n && Records(states[i.value], c, steps[i.value], d)
  {
    i := None;
    if n > 0 {
      PendingAt(c, states, steps, n - 1, d);
      if StillPending(states[n - 1], d) {
        i := Recorded(c, states, steps, n - 1, d);
      } else {
        i := Some(n - 1);
      }
    }
  }

  /**
   In every run, each entry into VERIFIED_WAITING_OWNER applies a decision
   recorded for that chat when its open challenge, still unexpired, was answered
   correctly by an original message.
   */
  lemma VerifiedNeedsCorrectAnswer(c: Config, states: seq<Sys>, steps: seq<Step>, j: nat, key: Key)
    returns (i: Option<nat>)
    requires IsRun(c, states, steps) && j < |steps|
    requires StateIn(states[j].life.records, key) != VerifiedWaitingOwner
    requires StateIn(states[j + 1].life.records, key) == VerifiedWaitingOwner
    ensures steps[j].ApplyEvent? && steps[j].update in states[j].pending
    ensures var d := states[j].pending[steps[j].update];
            && d.raw.key == key && d.action.InboundAction? && d.action.outcome.Correct?
            && StateIn(states[j].life.records, key) == VerifyPending
            && (i.None? ==> StillPending(states[0], d))
            && (i.Some? ==>
                  && i.value < j && Records(states[i.value], c, steps[i.value], d)
                  && var r := states[i.value].life.records;
                     && HeldAgainst(r, d.raw, d.action.outcome.challenge)
                     && AnswersInTime(r, d.raw, d.action.outcome.challenge)
                     && d.raw.answer == Arithmetic.AnswerKind.Correct)
  {
    RunInv(c, states, steps, j);
    MovesHaveCauses(states[j], c, steps[j], key);
    var d := states[j].pending[steps[j].update];
    i := Recorded(c, states, steps, j, d);
    if i.Some? { CorrectlyAnswered(c, states, steps, i.value, d); }
  }

  lemma CorrectlyAnswered(c: Config, states: seq<Sys>, steps: seq<Step>, i: nat, d: Decision)
    requires IsRun(c, states, steps) && i < |steps| && Records(states[i], c, steps[i], d)
    requires d.action.InboundAction? && d.action.outcome.Correct?
    ensures var r, id := states[i].life.records, d.action.outcome.challenge;
            HeldAgainst(r, d.raw, id) && AnswersInTime(r, d.raw, id) && d.raw.answer == Arithmetic.AnswerKind.Correct
  {
    RunInv(c, states, steps, i);
    PreparesExactly(states[i].life.records, c, d.raw);
    assert d.action.outcome == Correct(d.action.outcome.challenge);
  }

  // ----- what three failures lead to ----------------------------------------------------------

  /**
   A third failed answer decided in dry-run, whenever it is applied: the challenge
   is closed, the chat is NEW again without an expiry or a reason, and the block
   is only proposed.
   */
  lemma ExhaustedInDryRun(c: Config, states: seq<Sys>, steps: seq<Step>, i: nat)
    requires IsRun(c, states, steps) && i < |steps| && steps[i].ApplyEvent?
    requires AfterApplying(states[i], steps[i].update).Some?
    requires var a := states[i].pending[steps[i].update].action;
             a.InboundAction? && a.outcome.Incorrect? && a.outcome.exhausted && a.outcome.blockExpires.None?
    ensures var u := steps[i].update;
            var key, id := states[i].pending[u].raw.key, states[i].pending[u].action.outcome.challenge;
            var t := states[i + 1].life;
            && key in t.records.conversations && id in t.records.challenges
            && t.records.conversations[key].state == New
            && t.records.conversations[key].blockExpires.None? && t.records.conversations[key].blockReason.None?
            && !t.records.challenges[id].open
            && (forall k :: !OpenFor(t.records, key, k))
            && Queues(t, u, key, NProposed, 1, ProposedBlock)
            && Queues(t, u, key, NEdit, 0, EditChallenge(id, EditExhaustedDryRun))
  {
    RunInv(c, states, steps, i);
    RunInv(c, states, steps, i + 1);
    var s, u := states[i], steps[i].update;
    var raw, a := s.pending[u].raw, s.pending[u].action;
    ConversationExactly(s.life, raw, a);
    ChallengesExactly(s.life, raw, a);
    QueueExactly(s.life, raw, a);
    PendingIsFresh(s, u);
    ShutEnds(s.life.records, states[i + 1].life.records, raw.key, a.outcome.challenge);
    var wanted := Requests(s.life.records, raw, a);
    assert Request(NProposed, 1, ProposedBlock) in wanted;
    assert Request(NEdit, 0, EditChallenge(a.outcome.challenge, EditExhaustedDryRun)) in wanted;
  }

  /** The queue holds this action of the update, still to be done. */
  predicate Queues(t: Life, update: int, key: Key, name: ActionName, batch: nat, p: Payload) {
    ByUpdate(update, name, key, batch) in t.outbox
    && t.outbox[ByUpdate(update, name, key, batch)] == Queued(key, p, true)
  }

  lemma ShutEnds(r: Records, t: Records, key: Key, id: int)
    requires Sound(t, false) && OneOpen(r) && id in r.challenges && r.challenges[id].open && r.challenges[id].key == key
    requires OneCounted(r.challenges, t.challenges, id, true)
    ensures forall k :: !OpenFor(t, key, k)
  {
  }

  // ----- spam is blocked ------------------------------------------------------------------------

  /**
   A message judged SPAM in destructive mode, in a chat that is not blocked or
   active, and applied at once: the chat is blocked for spam, no challenge stays
   open, and the message is to be read and everything known of the chat deleted.
   */
  lemma SpamIsBlocked(c: Config, states: seq<Sys>, steps: seq<Step>, i: nat)
    requires IsRun(c, states, steps) && i + 1 < |steps| && steps[i].RecordEvent?
    requires steps[i + 1] == ApplyEvent(steps[i].raw.update)
    requires !Known(states[i], steps[i].raw.update)
    requires var r, raw := states[i].life.records, steps[i].raw;
             && Incoming(r, raw) && raw.verdict == Spam && MayDestroy(r, c, raw.key.conn)
             && InState(r, raw.key, {New, VerifyPending, VerifiedWaitingOwner})
    ensures var raw, t := steps[i].raw, states[i + 2].life;
            && raw.key in t.records.conversations
            && t.records.conversations[raw.key].state == SpamSoftBlocked
            && t.records.conversations[raw.key].blockReason == Some(BecauseSpam)
            && (forall k :: !OpenFor(t.records, raw.key, k))
            && Queues(t, raw.update, raw.key, NRead, 0, ReadMessage(raw.message))
            && DeletesExactly(t, raw.update, raw.key, EligibleIds(t, raw.key))
            && (raw.key, raw.message) in t.ledger
  {
    RunInv(c, states, steps, i);
    RunInv(c, states, steps, i + 1);
    var s, raw := states[i], steps[i].raw;
    SpamDecided(s.life.records, c, raw);
    SpamApplied(states[i + 1], raw, Prepare(s.life.records, c, raw).value);
  }

  lemma SpamDecided(r: Records, c: Config, raw: Raw)
    requires Sound(r, false) && Incoming(r, raw) && raw.verdict == Spam && MayDestroy(r, c, raw.key.conn)
    requires InState(r, raw.key, {New, VerifyPending, VerifiedWaitingOwner})
    ensures Prepare(r, c, raw) == Ok(InboundAction(Spam, SpamOutcome, false))
  {
    PrepareFailsExactly(r, c, raw);
    PreparesExactly(r, c, raw);
  }

  lemma SpamApplied(s: Sys, raw: Raw, a: Prepared)
    requires SysInv(s) && raw.update in s.pending && s.pending[raw.update].raw == raw
    requires a == InboundAction(Spam, SpamOutcome, false) && s.pending[raw.update].action == a
    requires raw.key.conn in s.life.records.rows
    requires InState(s.life.records, raw.key, {New, VerifyPending, VerifiedWaitingOwner})
    ensures Apply(s.life, raw, a).Some?
    ensures var t := Apply(s.life, raw, a).value;
            && raw.key in t.records.conversations
            && t.records.conversations[raw.key].state == SpamSoftBlocked
            && t.records.conversations[raw.key].blockReason == Some(BecauseSpam)
            && (forall k :: !OpenFor(t.records, raw.key, k))
            && Queues(t, raw.update, raw.key, NRead, 0, ReadMessage(raw.message))
            && DeletesExactly(t, raw.update, raw.key, EligibleIds(t, raw.key))
            && (raw.key, raw.message) in t.ledger
  {
    AppliedExactly(s.life, raw, a);
    ConversationExactly(s.life, raw, a);
    ChallengesExactly(s.life, raw, a);
    QueueExactly(s.life, raw, a);
    LedgerExactly(s.life, raw, a);
    PendingIsFresh(s, raw.update);
    DeletesAreExact(s.life, raw, a);
    assert Request(NRead, 0, ReadMessage(raw.message)) in Requests(s.life.records, raw, a);
  }
}
