/** What holds over whole runs of the conversation lifecycle, replays out of order included. */
module LifecycleRuns {
  import opened Prelude
  import opened Batches
  import opened Lifecycle
  import opened LifecycleInvariant
  import opened LifecycleEffects
  import opened LifecycleSystem
  import Arithmetic

  // ----- what every run keeps ----------------------------------------------------------------

  predicate SysInv(s: Sys) {
    Sound(s.life.records, false) && PendingSound(s) && QueueKnown(s)
  }

  lemma DecideSound(r: Records, c: Config, raw: Raw)
    requires Sound(r, false) && Decide(r, c, raw).Some?
    ensures var d := Decide(r, c, raw).value; d.raw == raw && DecisionSound(d) && DecisionKept(r, d)
  {
    PrepareNamesOwn(r, c, raw);
  }

  /** Challenges never change hands, their IDs never come back, and their counters only grow. */
  lemma KeptDecision(r: Records, t: Records, consumed: Option<int>, d: Decision)
    requires CountersFollow(r, t, consumed) && DecisionKept(r, d)
    ensures DecisionKept(t, d)
  {
  }

  lemma KeptPending(s: Sys, t: Sys, consumed: Option<int>)
    requires PendingSound(s) && CountersFollow(s.life.records, t.life.records, consumed)
    requires forall u :: u in t.pending ==> u in s.pending && t.pending[u] == s.pending[u] && u !in t.applied
    ensures PendingSound(t)
  {
    forall u | u in t.pending ensures DecisionKept(t.life.records, t.pending[u]) {
      KeptDecision(s.life.records, t.life.records, consumed, s.pending[u]);
    }
  }

  lemma VisibilitySound(r: Records, t: Records, strict: bool)
    requires Sound(r, strict) && t == r.(visible := t.visible, rows := t.rows, destructive := t.destructive)
    requires r.rows <= t.rows && forall conn :: conn in t.visible ==> conn in t.rows
    ensures Sound(t, strict)
  {
    forall key | key in t.conversations ensures ConversationSound(t, key, strict) {
      assert ConversationSound(r, key, strict);
      assert forall id :: OpenFor(r, key, id) <==> OpenFor(t, key, id);
    }
    forall id | id in t.challenges ensures ChallengeSound(t, id, strict) { assert ChallengeSound(r, id, strict); }
  }

  lemma UpgradeSound(r: Records, c: Config, canonical: set<int>, strict: bool)
    requires Sound(r, strict) && UpgradeKeys(r, c, canonical).Some?
    ensures Sound(UpgradeKeys(r, c, canonical).value, strict)
  {
    var t := UpgradeKeys(r, c, canonical).value;
    forall key | key in t.conversations ensures ConversationSound(t, key, strict) {
      assert ConversationSound(r, key, strict);
      assert forall id :: OpenFor(r, key, id) <==> OpenFor(t, key, id);
    }
    forall id | id in t.challenges ensures ChallengeSound(t, id, strict) { assert ChallengeSound(r, id, strict); }
  }

  lemma CommandSound(s: Life, update: int, command: Command, strict: bool)
    requires Sound(s.records, strict) && CommandEffect(s, update, command).Some?
    ensures Sound(CommandEffect(s, update, command).value.records, strict)
  {
    match command
    case ResetChat(key, now) => ResetSound(s, update, key, now, strict);
    case UnblockChat(key, now) => UnblockSound(s.records, key, now, strict);
    case SwitchDryRun(_, _, _) => VisibilitySound(s.records, CommandEffect(s, update, command).value.records, strict);
  }

  /** The step applies a decision that leaves a challenge behind. */
  predicate HarmlessStep(s: Sys, step: Step) {
    step.ApplyEvent? && step.update in s.pending && AfterApplying(s, step.update).Some? ==>
      ActionHarmless(s.life.records, s.pending[step.update].raw.key, s.pending[step.update].action)
  }

  lemma ApplyRecordedSound(s: Sys, u: int, strict: bool)
    requires Sound(s.life.records, strict) && Sound(s.life.records, false) && PendingSound(s) && u in s.pending
    requires strict ==> HarmlessStep(s, ApplyEvent(u))
    ensures Sound(ApplyRecorded(s, u).life.records, strict)
  {
    var d := s.pending[u];
    AppliedExactly(s.life, d.raw, d.action);
    if AfterApplying(s, u).Some? { ApplySound(s.life, d.raw, d.action, strict); }
  }

  lemma StepSound(s: Sys, c: Config, step: Step, strict: bool)
    requires Sound(s.life.records, strict) && Sound(s.life.records, false) && PendingSound(s) && CanStep(s, step)
    requires strict ==> HarmlessStep(s, step)
    ensures Sound(Next(s, c, step).life.records, strict)
  {
    var r := s.life.records;
    match step
    case ApplyEvent(u) => ApplyRecordedSound(s, u, strict);
    case OwnerCommand(u, command) =>
      if CommandEffect(s.life, u, command).Some? { CommandSound(s.life, u, command, strict); }
    case ExpirePass(now) => ExpireDueSound(r, now, strict);
    case UpgradeChallenges(canonical) =>
      if UpgradeKeys(r, c, canonical).Some? { UpgradeSound(r, c, canonical, strict); }
    case PromptOutcome(id, message) => PromptSound(r, id, message, strict);
    case ForceDryRun => VisibilitySound(r, r.(destructive := Some(false)), strict);
    case ChangeVisibility(v) => VisibilitySound(r, r.(visible := v), strict);
    case AddConnection(conn) => VisibilitySound(r, r.(rows := r.rows + {conn}), strict);
    case RemoveConnection(conn) => DropSound(r, conn, strict);
    case _ =>
  }

  // ----- counters over steps ---------------------------------------------------------------------

  /** The challenge whose attempt counter a step consumes. */
  function Consumed(s: Sys, step: Step): Option<int> {
    if && step.ApplyEvent? && step.update in s.pending && s.pending[step.update].action.InboundAction?
       && s.pending[step.update].action.outcome.Incorrect? && AfterApplying(s, step.update).Some?
    then Some(s.pending[step.update].action.outcome.challenge) else None
  }

  lemma CommandCounters(s: Life, update: int, command: Command)
    requires CommandEffect(s, update, command).Some?
    ensures CountersFollow(s.records, CommandEffect(s, update, command).value.records, None)
  {
    match command
    case ResetChat(key, now) => ResetRecords(s, update, key, now);
    case _ =>
  }

  lemma StepCounters(s: Sys, c: Config, step: Step)
    requires CanStep(s, step) && Sound(s.life.records, false)
    ensures CountersFollow(s.life.records, Next(s, c, step).life.records, Consumed(s, step))
  {
    match step
    case ApplyEvent(u) =>
      if AfterApplying(s, u).Some? { ApplyCounters(s.life, s.pending[u].raw, s.pending[u].action); }
    case OwnerCommand(u, command) =>
      if CommandEffect(s.life, u, command).Some? { CommandCounters(s.life, u, command); }
    case _ =>
  }

  // ----- the queue over steps ------------------------------------------------------------------------

  lemma CommandQueuedBy(s: Life, update: int, command: Command)
    requires CommandEffect(s, update, command).Some?
    ensures QueuedBy(s.outbox, CommandEffect(s, update, command).value.outbox, update)
  {
    match command
    case ResetChat(key, now) =>
      var ids := Sorted(EligibleIds(s, key) + Prompts(s.records, key));
      BatchesQueuedBy(ClearConversation(s, key, now), update, key, Split(ids), 0);
    case _ =>
  }

  lemma StepQueue(s: Sys, c: Config, step: Step)
    requires CanStep(s, step) && PendingSound(s) && QueueKnown(s)
    ensures QueueKnown(Next(s, c, step))
  {
    match step
    case ApplyEvent(u) =>
      if AfterApplying(s, u).Some? { ApplyQueuedBy(s.life, s.pending[u].raw, s.pending[u].action); }
    case OwnerCommand(u, command) =>
      if CommandEffect(s.life, u, command).Some? { CommandQueuedBy(s.life, u, command); }
    case _ =>
  }

  lemma StepPending(s: Sys, c: Config, step: Step)
    requires CanStep(s, step) && SysInv(s)
    ensures PendingSound(Next(s, c, step))
  {
    var t := Next(s, c, step);
    if step.RecordEvent? {
      if t != s { DecideSound(s.life.records, c, step.raw); }
    } else {
      StepCounters(s, c, step);
      PendingShrinks(s, c, step);
      KeptPending(s, t, Consumed(s, step));
    }
  }

  lemma PendingShrinks(s: Sys, c: Config, step: Step)
    requires CanStep(s, step) && PendingSound(s) && !step.RecordEvent?
    ensures var t := Next(s, c, step);
            forall u :: u in t.pending ==> u in s.pending && t.pending[u] == s.pending[u] && u !in t.applied
  {
  }

  lemma StepInv(s: Sys, c: Config, step: Step)
    requires SysInv(s) && CanStep(s, step)
    ensures SysInv(Next(s, c, step))
  {
    StepSound(s, c, step, false);
    StepPending(s, c, step);
    StepQueue(s, c, step);
  }

  lemma StepAt(c: Config, states: seq<Sys>, steps: seq<Step>, i: nat)
    requires IsRun(c, states, steps) && i < |steps| && SysInv(states[i])
    ensures SysInv(states[i + 1])
  {
    StepInv(states[i], c, steps[i]);
  }

  lemma {:induction false} RunInv(c: Config, states: seq<Sys>, steps: seq<Step>, i: nat)
    requires IsRun(c, states, steps) && i < |states|
    ensures SysInv(states[i])
  {
    if i == 0 {
      InvIsSound(states[0].life.records, false);
    } else {
      RunInv(c, states, steps, i - 1);
      StepAt(c, states, steps, i - 1);
    }
  }

  /**
   In every run, whatever is replayed in whatever order: at most one open
   challenge per conversation, one exists while the conversation is under
   verification, an expiry is stored exactly for temporary blocks and a reason
   exactly for blocks.
   */
  lemma EveryRunKeeps(c: Config, states: seq<Sys>, steps: seq<Step>, i: nat, key: Key)
    requires IsRun(c, states, steps) && i < |states| && key in states[i].life.records.conversations
    ensures var r := states[i].life.records;
            var conversation := r.conversations[key];
            && (conversation.state == VerifyPending ==> exists id :: OpenFor(r, key, id))
            && (forall a, b :: OpenFor(r, key, a) && OpenFor(r, key, b) ==> a == b)
            && (conversation.blockExpires.Some? <==> conversation.state == TempSoftBlocked)
            && (conversation.blockReason.Some? <==> Blocked(conversation.state))
  {
    RunInv(c, states, steps, i);
    var open := Localize(states[i].life.records, key, false);
    if open.Some? { assert OpenFor(states[i].life.records, key, open.value); }
  }

  // ----- when the full invariant holds -------------------------------------------------------------

  ghost predicate HarmlessUntil(states: seq<Sys>, steps: seq<Step>, n: nat)
    requires n <= |steps| <= |states|
  {
    forall j :: 0 <= j < n ==> HarmlessStep(states[j], steps[j])
  }

  lemma HarmlessAt(c: Config, states: seq<Sys>, steps: seq<Step>, i: nat)
    requires IsRun(c, states, steps) && i < |steps| && SysInv(states[i]) && Inv(states[i].life.records)
    ensures Inv(states[i + 1].life.records) <==> HarmlessStep(states[i], steps[i])
  {
    var s, step := states[i], steps[i];
    if HarmlessStep(s, step) {
      StepSound(s, c, step, true);
    } else {
      var d := s.pending[step.update];
      AppliedExactly(s.life, d.raw, d.action);
      ReplayIsSafeExactly(s.life, d.raw, d.action);
    }
  }

  lemma {:induction false} HarmlessIsConsistent(c: Config, states: seq<Sys>, steps: seq<Step>, n: nat)
    requires IsRun(c, states, steps) && n <= |steps| && HarmlessUntil(states, steps, n)
    ensures forall i :: 0 <= i <= n ==> Inv(states[i].life.records)
  {
    if n > 0 {
      HarmlessIsConsistent(c, states, steps, n - 1);
      RunInv(c, states, steps, n - 1);
      HarmlessAt(c, states, steps, n - 1);
    }
  }

  /** Over any run the full invariant holds throughout if and only if every applied decision was harmless then. */
  lemma ConsistentExactly(c: Config, states: seq<Sys>, steps: seq<Step>, n: nat)
    requires IsRun(c, states, steps) && n <= |steps|
    ensures (forall i :: 0 <= i <= n ==> Inv(states[i].life.records)) <==> HarmlessUntil(states, steps, n)
  {
    if HarmlessUntil(states, steps, n) {
      HarmlessIsConsistent(c, states, steps, n);
    }
    if forall i :: 0 <= i <= n ==> Inv(states[i].life.records) {
      forall j | 0 <= j < n ensures HarmlessStep(states[j], steps[j]) {
        RunInv(c, states, steps, j);
        HarmlessAt(c, states, steps, j);
      }
    }
  }

  /**
   As long as no late decision did harm: a conversation is under verification
   exactly when it has an open challenge, which is then unique and has attempts
   left; an expiry is stored exactly for temporary blocks and a reason exactly
   for blocks.
   */
  lemma ConversationsAreConsistent(c: Config, states: seq<Sys>, steps: seq<Step>, i: nat, key: Key)
    requires IsRun(c, states, steps) && i < |states| && key in states[i].life.records.conversations
    requires HarmlessUntil(states, steps, i)
    ensures var r := states[i].life.records;
            var conversation := r.conversations[key];
            && (conversation.state == VerifyPending <==> exists id :: OpenFor(r, key, id))
            && (forall a, b :: OpenFor(r, key, a) && OpenFor(r, key, b) ==> a == b)
            && (forall id :: OpenFor(r, key, id) ==> r.challenges[id].attempts < MAX_ATTEMPTS)
            && (conversation.blockExpires.Some? <==> conversation.state == TempSoftBlocked)
            && (conversation.blockReason.Some? <==> Blocked(conversation.state))
  {
    HarmlessIsConsistent(c, states, steps, i);
    var open := Localize(states[i].life.records, key, true);
    if open.Some? { assert OpenFor(states[i].life.records, key, open.value); }
  }

  // ----- when decisions can be applied ------------------------------------------------------------------

  /** In every state of every run, a recorded decision is applied if and only if it is applicable. */
  lemma DecisionsApplyExactly(c: Config, states: seq<Sys>, steps: seq<Step>, i: nat, update: int)
    requires IsRun(c, states, steps) && i < |states| && update in states[i].pending
    ensures var d := states[i].pending[update];
            AfterApplying(states[i], update).Some? <==> Applicable(states[i].life.records, d.raw.key, d.action)
  {
    RunInv(c, states, steps, i);
    AppliedExactly(states[i].life, states[i].pending[update].raw, states[i].pending[update].action);
  }

  /** Steps of others, which may come between a decision and its application. */
  predicate Foreign(step: Step) {
    || step.FailEvent? || step.PurgeActions? || step.PromptOutcome? || step.ForceDryRun?
    || step.FinishAction? || step.ChangeVisibility? || step.RemoveConnection?
  }

  predicate Sole(pending: map<int, Decision>) {
    forall u, v :: u in pending && v in pending ==> u == v
  }

  predicate OrderlyInv(s: Sys) {
    && Inv(s.life.records) && Sole(s.pending)
    && forall u :: u in s.pending && s.pending[u].raw.key.conn in s.life.records.rows ==>
         ActionFits(s.life.records, s.pending[u].raw, s.pending[u].action)
  }

  /** Nothing is outstanding out of order at first, and the worker applies each decision before it goes on. */
  ghost predicate InOrder(states: seq<Sys>, steps: seq<Step>) {
    && states != [] && OrderlyInv(states[0])
    && forall i :: 0 <= i < |steps| && i < |states| && states[i].pending != map[] ==>
         steps[i].ApplyEvent? || Foreign(steps[i])
  }

  lemma FitsSurvives(r: Records, t: Records, raw: Raw, a: Prepared)
    requires ActionFits(r, raw, a)
    requires StateOf(t, raw.key) == StateOf(r, raw.key) && r.nextChallenge <= t.nextChallenge
    requires forall id :: OpenFor(t, raw.key, id) <==> OpenFor(r, raw.key, id)
    requires forall id :: id in r.challenges && r.challenges[id].key == raw.key ==>
               id in t.challenges && t.challenges[id].key == raw.key && t.challenges[id].open == r.challenges[id].open
               && t.challenges[id].attempts == r.challenges[id].attempts
    ensures ActionFits(t, raw, a)
  {
  }

  lemma ForeignKeepsFit(s: Sys, c: Config, step: Step, raw: Raw, a: Prepared)
    requires CanStep(s, step) && Foreign(step) && ActionFits(s.life.records, raw, a)
    requires raw.key.conn in Next(s, c, step).life.records.rows
    ensures ActionFits(Next(s, c, step).life.records, raw, a)
  {
    FitsSurvives(s.life.records, Next(s, c, step).life.records, raw, a);
  }

  lemma OrderlyApply(s: Sys, u: int)
    requires OrderlyInv(s) && PendingSound(s) && Sound(s.life.records, false) && u in s.pending
    ensures var d := s.pending[u];
            AfterApplying(s, u).None? <==> NeedsRow(d.action) && d.raw.key.conn !in s.life.records.rows
    ensures HarmlessStep(s, ApplyEvent(u))
  {
    var d := s.pending[u];
    AppliedExactly(s.life, d.raw, d.action);
  }

  lemma OrderlyForeign(s: Sys, c: Config, step: Step)
    requires OrderlyInv(s) && SysInv(s) && CanStep(s, step) && Foreign(step)
    ensures OrderlyInv(Next(s, c, step))
  {
    var t := Next(s, c, step);
    StepSound(s, c, step, true);
    PendingShrinks(s, c, step);
    forall u | u in t.pending && t.pending[u].raw.key.conn in t.life.records.rows
      ensures ActionFits(t.life.records, t.pending[u].raw, t.pending[u].action)
    {
      ForeignKeepsFit(s, c, step, s.pending[u].raw, s.pending[u].action);
    }
  }

  lemma OrderlyApplied(s: Sys, c: Config, u: int)
    requires OrderlyInv(s) && SysInv(s) && u in s.pending
    ensures OrderlyInv(ApplyRecorded(s, u))
  {
    OrderlyApply(s, u);
    ApplyRecordedSound(s, u, true);
    assert forall v :: v in s.pending - {u} ==> v in s.pending && v != u;
  }

  lemma OrderlyRecorded(s: Sys, c: Config, raw: Raw)
    requires OrderlyInv(s) && s.pending == map[]
    ensures OrderlyInv(Record(s, c, raw))
  {
    if Prepare(s.life.records, c, raw).Ok? { PrepareFits(s.life.records, c, raw); }
  }

  lemma OrderlyIdle(s: Sys, c: Config, step: Step)
    requires OrderlyInv(s) && SysInv(s) && CanStep(s, step) && s.pending == map[] && !step.ApplyEvent?
             && !step.RecordEvent?
    ensures OrderlyInv(Next(s, c, step))
  {
    StepSound(s, c, step, true);
    PendingShrinks(s, c, step);
  }

  lemma OrderlyAt(c: Config, states: seq<Sys>, steps: seq<Step>, i: nat)
    requires IsRun(c, states, steps) && InOrder(states, steps) && i < |steps|
    requires SysInv(states[i]) && OrderlyInv(states[i])
    ensures OrderlyInv(states[i + 1]) && HarmlessStep(states[i], steps[i])
  {
    var s, step := states[i], steps[i];
    if step.ApplyEvent? {
      OrderlyApply(s, step.update);
      OrderlyApplied(s, c, step.update);
    } else if s.pending != map[] {
      OrderlyForeign(s, c, step);
    } else if step.RecordEvent? {
      OrderlyRecorded(s, c, step.raw);
    } else {
      OrderlyIdle(s, c, step);
    }
  }

  lemma {:induction false} OrderlyRun(c: Config, states: seq<Sys>, steps: seq<Step>, i: nat)
    requires IsRun(c, states, steps) && InOrder(states, steps) && i < |states|
    ensures OrderlyInv(states[i])
  {
    if i > 0 {
      OrderlyRun(c, states, steps, i - 1);
      RunInv(c, states, steps, i - 1);
      OrderlyAt(c, states, steps, i - 1);
    }
  }

  /**
   Preparer and handler agree: applied in order, no decision ever does harm, and
   it is applicable unless its connection row has been deleted since and it
   writes a conversation.
   */
  lemma InOrderIsSafe(c: Config, states: seq<Sys>, steps: seq<Step>, i: nat)
    requires IsRun(c, states, steps) && InOrder(states, steps) && i <= |steps|
    ensures HarmlessUntil(states, steps, i)
    ensures forall u :: u in states[i].pending ==>
              var d := states[i].pending[u];
              AfterApplying(states[i], u).None? <==>
                NeedsRow(d.action) && d.raw.key.conn !in states[i].life.records.rows
  {
    forall j | 0 <= j < i ensures HarmlessStep(states[j], steps[j]) {
      OrderlyRun(c, states, steps, j);
      RunInv(c, states, steps, j);
      OrderlyAt(c, states, steps, j);
    }
    OrderlyRun(c, states, steps, i);
    RunInv(c, states, steps, i);
    forall u | u in states[i].pending
      ensures var d := states[i].pending[u];
              AfterApplying(states[i], u).None? <==>
                NeedsRow(d.action) && d.raw.key.conn !in states[i].life.records.rows
    {
      OrderlyApply(states[i], u);
    }
  }

  /** In every state of every run, preparation fails exactly for an answer that needs a key of another version. */
  lemma PreparationFailsExactly(c: Config, states: seq<Sys>, steps: seq<Step>, i: nat, raw: Raw)
    requires IsRun(c, states, steps) && i < |states|
    ensures var r := states[i].life.records;
            Prepare(r, c, raw).Err? <==> exists id :: id in r.challenges && NeedsOldKey(r, c, raw, id)
  {
    RunInv(c, states, steps, i);
    PrepareFailsExactly(states[i].life.records, c, raw);
  }

  // ----- the key upgrade -----------------------------------------------------------------------------

  /** Open challenges carry the current key version. */
  predicate CurrentKeys(r: Records, c: Config) {
    forall id :: id in r.challenges && r.challenges[id].open ==> r.challenges[id].keyVersion == c.keyVersion
  }

  predicate StartsUnder(d: Decision, version: int) {
    d.action.InboundAction? && d.action.outcome.StartChallenge? ==> d.action.outcome.keyVersion == version
  }

  /** Recorded decisions start challenges under the current key only. */
  predicate CurrentStarts(s: Sys, c: Config) {
    forall u :: u in s.pending ==> StartsUnder(s.pending[u], c.keyVersion)
  }

  /** The step starts a challenge under another key, as an earlier version of the program decided. */
  predicate StartsOldKey(s: Sys, c: Config, step: Step) {
    && step.ApplyEvent? && step.update in s.pending && AfterApplying(s, step.update).Some?
    && !StartsUnder(s.pending[step.update], c.keyVersion)
  }

  predicate Upgrades(s: Sys, c: Config, step: Step) {
    step.UpgradeChallenges? && UpgradeKeys(s.life.records, c, step.canonical).Some?
  }

  /** Whatever is open afterwards was open before under the same key, or is under the current one. */
  predicate KeysFollow(r: Records, t: Records, c: Config) {
    forall id :: id in t.challenges && t.challenges[id].open ==>
      || t.challenges[id].keyVersion == c.keyVersion
      || (id in r.challenges && r.challenges[id].open && r.challenges[id].keyVersion == t.challenges[id].keyVersion)
  }

  lemma IncorrectKeys(s: Life, raw: Raw, conversation: Conversation, o: Outcome, c: Config)
    requires o.Incorrect? && ApplyIncorrect(s, raw, conversation, o).Some?
    ensures KeysFollow(s.records, ApplyIncorrect(s, raw, conversation, o).value.life.records, c)
  {
    var counted := IncrementAttempts(s.records, o.challenge).value;
    assert KeysFollow(s.records, counted, c) && KeysFollow(s.records, CloseChallenge(counted, o.challenge), c);
  }

  lemma OutcomeKeys(s: Life, raw: Raw, conversation: Conversation, o: Outcome, c: Config)
    requires ApplyOutcome(s, raw, conversation, o).Some? && (o.StartChallenge? ==> o.keyVersion == c.keyVersion)
    ensures KeysFollow(s.records, ApplyOutcome(s, raw, conversation, o).value.life.records, c)
  {
    match o
    case Incorrect(_, _, _, _) => IncorrectKeys(s, raw, conversation, o, c);
    case SpamOutcome => PurgeKeepsRecords(s.(records := CloseActive(s.records, raw.key)), raw);
    case _ =>
  }

  lemma ApplyKeys(s: Life, raw: Raw, a: Prepared, c: Config)
    requires Apply(s, raw, a).Some?
    requires a.InboundAction? && a.outcome.StartChallenge? ==> a.outcome.keyVersion == c.keyVersion
    ensures KeysFollow(s.records, Apply(s, raw, a).value.records, c)
  {
    match a
    case InboundAction(_, _, _) =>
      var created := GetOrCreate(s.records, raw.key, raw.at).value;
      OutcomeKeys(Annotate(s.(records := created), raw, a), raw, created.conversations[raw.key], a.outcome, c);
    case BlockedInbound =>
      var created := GetOrCreate(s.records, raw.key, raw.at).value;
      PurgeKeepsRecords(RecordInbound(s.(records := Touch(created, raw.key, raw.at)), raw), raw);
    case _ =>
  }

  lemma StepKeys(s: Sys, c: Config, step: Step)
    requires CanStep(s, step) && !StartsOldKey(s, c, step)
    ensures KeysFollow(s.life.records, Next(s, c, step).life.records, c)
  {
    match step
    case ApplyEvent(u) =>
      if AfterApplying(s, u).Some? { ApplyKeys(s.life, s.pending[u].raw, s.pending[u].action, c); }
    case OwnerCommand(u, command) =>
      if command.ResetChat? && CommandEffect(s.life, u, command).Some? {
        ResetRecords(s.life, u, command.key, command.now);
      }
    case _ =>
  }

  lemma StepStarts(s: Sys, c: Config, step: Step)
    requires CanStep(s, step) && PendingSound(s) && CurrentStarts(s, c)
    ensures CurrentStarts(Next(s, c, step), c)
  {
    if !step.RecordEvent? { PendingShrinks(s, c, step); }
  }

  lemma StartsAt(c: Config, states: seq<Sys>, steps: seq<Step>, i: nat)
    requires IsRun(c, states, steps) && i < |steps| && CurrentStarts(states[i], c)
    ensures CurrentStarts(states[i + 1], c)
  {
    RunInv(c, states, steps, i);
    StepStarts(states[i], c, steps[i]);
  }

  lemma {:induction false} StartsStayCurrent(c: Config, states: seq<Sys>, steps: seq<Step>, i: nat, j: nat)
    requires IsRun(c, states, steps) && i <= j < |states| && CurrentStarts(states[i], c)
    ensures CurrentStarts(states[j], c)
    decreases j
  {
    if i < j {
      StartsStayCurrent(c, states, steps, i, j - 1);
      StartsAt(c, states, steps, j - 1);
    }
  }

  lemma KeysAt(c: Config, states: seq<Sys>, steps: seq<Step>, i: nat)
    requires IsRun(c, states, steps) && i < |steps| && !StartsOldKey(states[i], c, steps[i])
    ensures KeysFollow(states[i].life.records, states[i + 1].life.records, c)
    ensures Upgrades(states[i], c, steps[i]) ==> CurrentKeys(states[i + 1].life.records, c)
  {
    StepKeys(states[i], c, steps[i]);
  }

  lemma KeysStayCurrent(r: Records, t: Records, c: Config)
    requires CurrentKeys(r, c) && KeysFollow(r, t, c)
    ensures CurrentKeys(t, c)
  {
  }

  lemma {:induction false} KeysStayCurrentAlong(tables: seq<Records>, c: Config, i: nat, j: nat)
    requires i <= j < |tables| && CurrentKeys(tables[i], c)
    requires forall k :: i <= k < j ==> KeysFollow(tables[k], tables[k + 1], c)
    ensures CurrentKeys(tables[j], c)
    decreases j
  {
    if i < j {
      KeysStayCurrentAlong(tables, c, i, j - 1);
      assert KeysFollow(tables[j - 1], tables[j - 1 + 1], c);
      KeysStayCurrent(tables[j - 1], tables[j], c);
    }
  }

  ghost predicate NoOldStarts(c: Config, states: seq<Sys>, steps: seq<Step>, i: nat, j: nat)
    requires j <= |steps| <= |states|
  {
    forall k :: i <= k < j ==> !StartsOldKey(states[k], c, steps[k])
  }

  lemma UpgradedStays(c: Config, states: seq<Sys>, steps: seq<Step>, i: nat, j: nat)
    requires IsRun(c, states, steps) && i < j < |states| && Upgrades(states[i], c, steps[i])
    requires NoOldStarts(c, states, steps, i, j)
    ensures CurrentKeys(states[j].life.records, c)
  {
    var tables := seq(|states|, k requires 0 <= k < |states| => states[k].life.records);
    assert !StartsOldKey(states[i], c, steps[i]);
    KeysAt(c, states, steps, i);
    forall k | i + 1 <= k < j ensures KeysFollow(tables[k], tables[k + 1], c) {
      assert !StartsOldKey(states[k], c, steps[k]);
      KeysAt(c, states, steps, k);
    }
    KeysStayCurrentAlong(tables, c, i + 1, j);
  }

  /** From a successful key upgrade on, preparation never fails, unless a challenge is started under an older key. */
  lemma UpgradeEndsFailures(c: Config, states: seq<Sys>, steps: seq<Step>, i: nat, j: nat, raw: Raw)
    requires IsRun(c, states, steps) && i < j < |states| && Upgrades(states[i], c, steps[i])
    requires NoOldStarts(c, states, steps, i, j)
    ensures Prepare(states[j].life.records, c, raw).Ok?
  {
    UpgradedStays(c, states, steps, i, j);
    PreparationFailsExactly(c, states, steps, j, raw);
  }

  /** Recovered before the upgrade, as start-up does, no recorded decision of an older key is left to do so. */
  lemma RecoveryThenUpgrade(c: Config, states: seq<Sys>, steps: seq<Step>, i: nat, j: nat, raw: Raw)
    requires IsRun(c, states, steps) && i < j < |states| && Upgrades(states[i], c, steps[i])
    requires CurrentStarts(states[i], c)
    ensures Prepare(states[j].life.records, c, raw).Ok?
  {
    forall k | i <= k < j ensures !StartsOldKey(states[k], c, steps[k]) {
      StartsStayCurrent(c, states, steps, i, k);
    }
    UpgradeEndsFailures(c, states, steps, i, j, raw);
  }

  /** An answer to the given challenge, one second before it expires. */
  function LastMinute(r: Records, id: int): Raw
    requires id in r.challenges
  {
    var now := r.challenges[id].expiresAt - 1;
    Raw(0, Inbound, r.challenges[id].key, 0, now, now, Allow, Arithmetic.AnswerKind.NonNumeric, [])
  }

  /** A challenge started under an older key cannot be answered until the next upgrade. */
  lemma OldStartNeedsUpgrade(c: Config, states: seq<Sys>, steps: seq<Step>, k: nat) returns (id: int)
    requires IsRun(c, states, steps) && k < |steps| && StartsOldKey(states[k], c, steps[k])
    ensures var r := states[k + 1].life.records;
            && OpenFor(r, states[k].pending[steps[k].update].raw.key, id)
            && (CanReply(r, r.challenges[id].key) ==> Prepare(r, c, LastMinute(r, id)).Err?)
  {
    RunInv(c, states, steps, k);
    RunInv(c, states, steps, k + 1);
    var s, u := states[k], steps[k].update;
    id := s.life.records.nextChallenge;
    StartedChallenge(s.life, s.pending[u].raw, s.pending[u].action);
    PrepareFailsExactly(states[k + 1].life.records, c, LastMinute(states[k + 1].life.records, id));
  }

  lemma StartedChallenge(s: Life, raw: Raw, a: Prepared)
    requires Apply(s, raw, a).Some? && a.InboundAction? && a.outcome.StartChallenge?
    ensures var r := Apply(s, raw, a).value.records;
            && OpenFor(r, raw.key, s.records.nextChallenge) && StateOf(r, raw.key) == VerifyPending
            && r.challenges[s.records.nextChallenge].keyVersion == a.outcome.keyVersion
  {
    var created := GetOrCreate(s.records, raw.key, raw.at).value;
    var annotated := Annotate(s.(records := created), raw, a);
    assert annotated.records == created;
  }

  // ----- who blocks whom ---------------------------------------------------------------------

  /** The decision that may move a conversation into a blocked state. */
  predicate BlocksBySpam(d: Decision, key: Key) {
    d.raw.key == key && d.action.InboundAction? && d.action.outcome == SpamOutcome
  }

  predicate BlocksByExhaustion(d: Decision, key: Key) {
    && d.raw.key == key && d.action.InboundAction?
    && d.action.outcome.Incorrect? && d.action.outcome.exhausted && d.action.outcome.blockExpires.Some?
  }

  /** Only applying an event ever blocks a conversation. */
  lemma OnlyEventsBlock(s: Sys, c: Config, step: Step, key: Key)
    requires CanStep(s, step) && !step.ApplyEvent?
    requires StateOf(Next(s, c, step).life.records, key) != StateOf(s.life.records, key)
    ensures !Blocked(StateOf(Next(s, c, step).life.records, key))
  {
    if step.OwnerCommand? && step.command.ResetChat? && CommandEffect(s.life, step.update, step.command).Some? {
      ResetRecords(s.life, step.update, step.command.key, step.command.now);
    }
  }

  /** The step applies this decision, and that is what changed the conversation's state. */
  predicate BlockedByApplying(s: Sys, step: Step, key: Key) {
    && step.ApplyEvent? && step.update in s.pending && AfterApplying(s, step.update).Some?
    && BlockedOnlyBy(s.life.records, AfterApplying(s, step.update).value.records, key, s.pending[step.update].action)
    && (key != s.pending[step.update].raw.key ==>
          StateOf(AfterApplying(s, step.update).value.records, key) == StateOf(s.life.records, key))
  }

  lemma BlockingStep(s: Sys, c: Config, step: Step, key: Key)
    requires CanStep(s, step) && StateOf(Next(s, c, step).life.records, key) != StateOf(s.life.records, key)
    requires Blocked(StateOf(Next(s, c, step).life.records, key))
    ensures BlockedByApplying(s, step, key)
    ensures Next(s, c, step) == ApplyRecorded(s, step.update)
  {
    if step.ApplyEvent? {
      ApplyBlocks(s.life, s.pending[step.update].raw, s.pending[step.update].action, key);
    } else {
      OnlyEventsBlock(s, c, step, key);
    }
  }

  /** In every run, each entry into the spam block applies a SPAM verdict that was decided in destructive mode. */
  lemma SpamBlockNeedsVerdict(c: Config, states: seq<Sys>, steps: seq<Step>, i: nat, key: Key)
    requires IsRun(c, states, steps) && i < |steps|
    requires StateOf(states[i].life.records, key) != SpamSoftBlocked
    requires StateOf(states[i + 1].life.records, key) == SpamSoftBlocked
    ensures steps[i].ApplyEvent? && steps[i].update in states[i].pending
    ensures var d := states[i].pending[steps[i].update];
            BlocksBySpam(d, key) && d.destructive && d.raw.verdict == Spam
  {
    RunInv(c, states, steps, i);
    BlockingStep(states[i], c, steps[i], key);
  }

  // ----- three failures on one challenge ---------------------------------------------------------

  /** How many failed answers to a challenge were applied in the first `n` steps. */
  ghost function Failures(states: seq<Sys>, steps: seq<Step>, n: nat, id: int): nat
    requires n <= |steps| < |states|
  {
    if n == 0 then 0
    else Failures(states, steps, n - 1, id) + if Consumed(states[n - 1], steps[n - 1]) == Some(id) then 1 else 0
  }

  /** The attempts a challenge had used when the run began. */
  function Inherited(states: seq<Sys>, id: int): nat
    requires states != []
  {
    if id in states[0].life.records.challenges then states[0].life.records.challenges[id].attempts else 0
  }

  lemma CountersAt(c: Config, states: seq<Sys>, steps: seq<Step>, i: nat)
    requires IsRun(c, states, steps) && i < |steps|
    ensures CountersFollow(states[i].life.records, states[i + 1].life.records, Consumed(states[i], steps[i]))
  {
    RunInv(c, states, steps, i);
    StepCounters(states[i], c, steps[i]);
  }

  /** In every run, a challenge's counter is exactly the number of failed answers applied to it. */
  lemma {:induction false} CounterIsHistory(c: Config, states: seq<Sys>, steps: seq<Step>, n: nat, id: int)
    requires IsRun(c, states, steps) && n <= |steps|
    ensures id in states[n].life.records.challenges ==>
              states[n].life.records.challenges[id].attempts == Inherited(states, id) + Failures(states, steps, n, id)
    ensures states[n].life.records.nextChallenge <= id ==> Inherited(states, id) + Failures(states, steps, n, id) == 0
  {
    if n == 0 {
      if id in states[0].life.records.challenges { assert ChallengeSound(states[0].life.records, id, true); }
    } else {
      CounterIsHistory(c, states, steps, n - 1, id);
      RunInv(c, states, steps, n - 1);
      CountersAt(c, states, steps, n - 1);
      var r := states[n - 1].life.records;
      if id in r.challenges { assert ChallengeSound(r, id, false); }
    }
  }

  /** In every run, each entry into the temporary block is the third failed answer to one and the same challenge. */
  lemma TempBlockNeedsThreeFailures(c: Config, states: seq<Sys>, steps: seq<Step>, i: nat, key: Key)
    requires IsRun(c, states, steps) && i < |steps|
    requires StateOf(states[i].life.records, key) != TempSoftBlocked
    requires StateOf(states[i + 1].life.records, key) == TempSoftBlocked
    ensures steps[i].ApplyEvent? && steps[i].update in states[i].pending
    ensures var d := states[i].pending[steps[i].update];
            && BlocksByExhaustion(d, key) && d.destructive
            && Inherited(states, d.action.outcome.challenge)
               + Failures(states, steps, i + 1, d.action.outcome.challenge)
               == MAX_ATTEMPTS
  {
    RunInv(c, states, steps, i);
    BlockingStep(states[i], c, steps[i], key);
    LastFailure(states[i], steps[i].update);
    CounterIsHistory(c, states, steps, i, states[i].pending[steps[i].update].action.outcome.challenge);
  }

  /** A failure called exhausted uses up the last attempt, also when it is applied late. */
  lemma LastFailure(s: Sys, u: int)
    requires SysInv(s) && u in s.pending && AfterApplying(s, u).Some?
    requires s.pending[u].action.InboundAction? && s.pending[u].action.outcome.Incorrect?
    requires s.pending[u].action.outcome.exhausted
    ensures var id := s.pending[u].action.outcome.challenge;
            id in s.life.records.challenges && s.life.records.challenges[id].attempts + 1 == MAX_ATTEMPTS
  {
    AppliedExactly(s.life, s.pending[u].raw, s.pending[u].action);
  }

  // ----- dry-run safety and delete requests -----------------------------------------------------------

  /**
   An event decided in dry-run, or without the rights to read and delete,
   queues no read and no delete and blocks no conversation, whatever happened
   between the decision and its application.
   */
  lemma DryRunIsSafe(c: Config, states: seq<Sys>, steps: seq<Step>, i: nat)
    requires IsRun(c, states, steps) && i < |steps| && steps[i].ApplyEvent?
    requires !states[i].pending[steps[i].update].destructive
    ensures NothingDestroyed(states[i].life.outbox, states[i + 1].life.outbox)
    ensures forall key :: Blocked(StateOf(states[i + 1].life.records, key)) ==>
              StateOf(states[i + 1].life.records, key) == StateOf(states[i].life.records, key)
  {
    RunInv(c, states, steps, i);
    var s, u := states[i], steps[i].update;
    var d := s.pending[u];
    if AfterApplying(s, u).Some? {
      ApplyIsHarmless(s.life, d.raw, d.action);
      forall key ensures Blocked(StateOf(states[i + 1].life.records, key)) ==>
        StateOf(states[i + 1].life.records, key) == StateOf(s.life.records, key)
      {
        ApplyBlocks(s.life, d.raw, d.action, key);
      }
    }
  }

  lemma PendingIsFresh(s: Sys, u: int)
    requires SysInv(s) && !(u in s.applied)
    ensures FreshUpdate(s.life.outbox, u)
  {
  }

  /** In every run, blocking or re-blocking queues delete requests for exactly the eligible messages. */
  lemma RunDeletesAreExact(c: Config, states: seq<Sys>, steps: seq<Step>, i: nat)
    requires IsRun(c, states, steps) && i < |steps| && steps[i].ApplyEvent?
    requires AfterApplying(states[i], steps[i].update).Some?
    requires var a := states[i].pending[steps[i].update].action;
             a == BlockedInbound || (a.InboundAction? && a.outcome == SpamOutcome)
    ensures var key := states[i].pending[steps[i].update].raw.key;
            DeletesExactly(states[i + 1].life, steps[i].update, key, EligibleIds(states[i + 1].life, key))
  {
    RunInv(c, states, steps, i);
    var u := steps[i].update;
    PendingIsFresh(states[i], u);
    DeletesAreExact(states[i].life, states[i].pending[u].raw, states[i].pending[u].action);
  }

  /**
   In every run, a new reset command forgets the conversation and asks for exactly what it knew of it to be deleted.
   */
  lemma RunResetForgets(c: Config, states: seq<Sys>, steps: seq<Step>, i: nat)
    requires IsRun(c, states, steps) && i < |steps| && steps[i].OwnerCommand? && steps[i].command.ResetChat?
    requires !Known(states[i], steps[i].update)
             && CommandEffect(states[i].life, steps[i].update, steps[i].command).Some?
    ensures var key := steps[i].command.key;
            && Forgotten(states[i + 1].life, steps[i].update, key)
            && DeletesExactly(states[i + 1].life, steps[i].update, key,
                              EligibleIds(states[i].life, key) + Prompts(states[i].life.records, key))
  {
    RunInv(c, states, steps, i);
    PendingIsFresh(states[i], steps[i].update);
    ResetForgetsExactly(states[i].life, steps[i].update, steps[i].command.key, steps[i].command.now);
  }
}
