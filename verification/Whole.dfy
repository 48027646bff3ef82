/**
 Trust and conversations together: the connections that the preparer sees are the
 trusted rows as they stand at that moment, and what happens to a trusted row
 happens to everything stored under it.
 */
module Whole {
  import opened Prelude
  import opened Trust
  import T = TrustSystem
  import TI = TrustInvariant
  import TrustRuns
  import L = Lifecycle
  import I = LifecycleInvariant
  import E = LifecycleEffects
  import S = LifecycleSystem
  import R = LifecycleRuns
  import D = LifecycleDecisions
  import M = LifecycleMoves

  datatype Sys = Sys(trust: T.Sys, life: S.Sys)

  datatype Step = TrustStep(trustStep: T.Step) | LifeStep(lifeStep: S.Step)

  // ----- what the preparer sees -----------------------------------------------------------------------

  /** Confirmed rows behind an open gate, with the rights that matter to it. */
  function VisibleRows(s: Store): map<string, L.Visible> {
    map id | id in s.trusted && FindConnection(s, id).Some? ::
      var row := s.trusted[id];
      L.Visible(row.enabled, row.rights.reply, row.rights.read, row.rights.deleteAll)
  }

  predicate Agree(s: Sys) {
    && s.life.life.records.rows == s.trust.store.trusted.Keys
    && s.life.life.records.visible == VisibleRows(s.trust.store)
  }

  /** Whether the write replaced one connection by another. */
  predicate Replaces(before: Store, after: Store) {
    before.trusted.Keys - after.trusted.Keys != {} && after.trusted.Keys - before.trusted.Keys != {}
  }

  function FollowRecords(r: L.Records, after: Store, dryRun: bool): L.Records {
    L.Records(after.trusted.Keys, VisibleRows(after), if dryRun then Some(false) else r.destructive,
              map key | key in r.conversations && key.conn in after.trusted :: r.conversations[key],
              map id | id in r.challenges && r.challenges[id].key.conn in after.trusted :: r.challenges[id],
              r.nextChallenge)
  }

  /**
   A deleted row takes its conversations, challenges and ledger with it; replacing
   a connection and disabling one both switch to dry-run in the same transaction.
   */
  function Follow(life: S.Sys, before: Store, after: Store, disabling: bool): S.Sys {
    var dryRun := disabling || Replaces(before, after);
    life.(life := life.life.(
            records := FollowRecords(life.life.records, after, dryRun),
            ledger := map k | k in life.life.ledger && k.0.conn in after.trusted :: life.life.ledger[k]))
  }

  predicate CanStep(s: Sys, step: Step) {
    match step
    case TrustStep(t) => T.CanStep(s.trust, t)
    case LifeStep(l) =>
      S.CanStep(s.life, l) && !l.ChangeVisibility? && !l.AddConnection? && !l.RemoveConnection?
  }

  ghost function Next(s: Sys, c: L.Config, step: Step): Sys
    requires CanStep(s, step)
  {
    match step
    case TrustStep(t) =>
      var trust := T.Next(s.trust, t);
      Sys(trust, Follow(s.life, s.trust.store, trust.store, t.OutboxDisable?))
    case LifeStep(l) => s.(life := S.Next(s.life, c, l))
  }

  ghost predicate Init(s: Sys) {
    T.Init(s.trust) && S.Init(s.life) && s.life.pending == map[] && Agree(s)
  }

  ghost predicate IsRun(c: L.Config, states: seq<Sys>, steps: seq<Step>) {
    && |states| == |steps| + 1
    && Init(states[0])
    && forall i :: 0 <= i < |steps| ==> CanStep(states[i], steps[i]) && states[i + 1] == Next(states[i], c, steps[i])
  }

  // ----- the invariant ------------------------------------------------------------------------------------

  ghost predicate WholeInv(s: Sys) {
    TI.Inv(s.trust) && R.SysInv(s.life) && Agree(s)
  }

  lemma FollowSound(r: L.Records, after: Store, dryRun: bool, strict: bool)
    requires I.Sound(r, strict)
    ensures I.Sound(FollowRecords(r, after, dryRun), strict)
  {
    var t := FollowRecords(r, after, dryRun);
    forall key | key in t.conversations ensures I.ConversationSound(t, key, strict) {
      assert I.ConversationSound(r, key, strict);
      assert forall k :: L.OpenFor(r, key, k) <==> L.OpenFor(t, key, k);
    }
    forall k | k in t.challenges ensures I.ChallengeSound(t, k, strict) {
      assert I.ChallengeSound(r, k, strict);
      assert I.ConversationSound(r, r.challenges[k].key, strict);
    }
  }

  lemma FollowInv(life: S.Sys, before: Store, after: Store, disabling: bool)
    requires R.SysInv(life)
    ensures R.SysInv(Follow(life, before, after, disabling))
  {
    var t := Follow(life, before, after, disabling);
    FollowSound(life.life.records, after, disabling || Replaces(before, after), false);
    assert E.CountersFollow(life.life.records, t.life.records, None);
    R.KeptPending(life, t, None);
  }

  lemma LifeKeepsConnections(s: S.Sys, c: L.Config, l: S.Step)
    requires S.CanStep(s, l) && !l.ChangeVisibility? && !l.AddConnection? && !l.RemoveConnection?
    ensures S.Next(s, c, l).life.records.rows == s.life.records.rows
    ensures S.Next(s, c, l).life.records.visible == s.life.records.visible
  {
    match l
    case ApplyEvent(u) =>
      if S.AfterApplying(s, u).Some? { ApplyKeepsSettings(s.life, s.pending[u].raw, s.pending[u].action); }
    case OwnerCommand(u, command) =>
      if command.ResetChat? && S.CommandEffect(s.life, u, command).Some? {
        I.ResetRecords(s.life, u, command.key, command.now);
      }
    case _ =>
  }

  /** The connections and the mode are as before. */
  predicate SameSettings(r: L.Records, t: L.Records) {
    t.rows == r.rows && t.visible == r.visible && t.destructive == r.destructive
  }

  lemma IncorrectKeepsSettings(s: L.Life, raw: L.Raw, conversation: L.Conversation, o: L.Outcome)
    requires o.Incorrect? && L.ApplyIncorrect(s, raw, conversation, o).Some?
    ensures SameSettings(s.records, L.ApplyIncorrect(s, raw, conversation, o).value.life.records)
  {
    var counted := L.IncrementAttempts(s.records, o.challenge).value;
    assert SameSettings(s.records, counted) && SameSettings(s.records, L.CloseChallenge(counted, o.challenge));
  }

  lemma SpamKeepsSettings(s: L.Life, raw: L.Raw, conversation: L.Conversation)
    requires L.ApplySpam(s, raw, conversation).Some?
    ensures SameSettings(s.records, L.ApplySpam(s, raw, conversation).value.life.records)
  {
    I.PurgeKeepsRecords(s.(records := L.CloseActive(s.records, raw.key)), raw);
  }

  lemma OutcomeKeepsSettings(s: L.Life, raw: L.Raw, conversation: L.Conversation, o: L.Outcome)
    requires L.ApplyOutcome(s, raw, conversation, o).Some?
    ensures SameSettings(s.records, L.ApplyOutcome(s, raw, conversation, o).value.life.records)
  {
    if o == L.SpamOutcome {
      SpamKeepsSettings(s, raw, conversation);
    } else if o.Incorrect? {
      IncorrectKeepsSettings(s, raw, conversation, o);
    }
  }

  lemma ApplyKeepsSettings(s: L.Life, raw: L.Raw, a: L.Prepared)
    requires L.Apply(s, raw, a).Some?
    ensures SameSettings(s.records, L.Apply(s, raw, a).value.records)
  {
    match a
    case InboundAction(_, _, _) =>
      var created := L.GetOrCreate(s.records, raw.key, raw.at).value;
      var annotated := L.Annotate(s.(records := created), raw, a);
      assert annotated.records == created;
      OutcomeKeepsSettings(annotated, raw, created.conversations[raw.key], a.outcome);
    case BlockedInbound =>
      var created := L.GetOrCreate(s.records, raw.key, raw.at).value;
      I.PurgeKeepsRecords(L.RecordInbound(s.(records := L.Touch(created, raw.key, raw.at)), raw), raw);
    case _ =>
  }

  lemma StepInv(s: Sys, c: L.Config, step: Step)
    requires WholeInv(s) && CanStep(s, step)
    ensures WholeInv(Next(s, c, step))
  {
    match step
    case TrustStep(t) =>
      TI.StepInv(s.trust, t);
      FollowInv(s.life, s.trust.store, T.Next(s.trust, t).store, t.OutboxDisable?);
    case LifeStep(l) =>
      R.StepInv(s.life, c, l);
      LifeKeepsConnections(s.life, c, l);
  }

  lemma StepAt(c: L.Config, states: seq<Sys>, steps: seq<Step>, i: nat)
    requires IsRun(c, states, steps) && i < |steps| && WholeInv(states[i])
    ensures WholeInv(states[i + 1])
  {
    StepInv(states[i], c, steps[i]);
  }

  lemma StartInv(s: Sys)
    requires Init(s)
    ensures WholeInv(s)
  {
    TI.InitInv(s.trust);
    I.InvIsSound(s.life.life.records, false);
  }

  /** In every run the conversations see exactly the trusted rows, and both sides keep what they keep alone. */
  lemma {:induction false} RunInv(c: L.Config, states: seq<Sys>, steps: seq<Step>, i: nat)
    requires IsRun(c, states, steps) && i < |states|
    ensures WholeInv(states[i])
  {
    if i == 0 {
      StartInv(states[0]);
    } else {
      RunInv(c, states, steps, i - 1);
      StepAt(c, states, steps, i - 1);
    }
  }

  // ----- where destructive decisions come from --------------------------------------------------------------

  /** The gate is open, and the connection is the only trusted one, the Owner's, with the rights to read and delete. */
  predicate OwnerAllows(s: Store, conn: string) {
    && s.gate.state == Ready && s.owner.Claimed? && s.trusted.Keys == {conn}
    && s.trusted[conn].owner == s.owner.user && s.trusted[conn].confirmed && s.trusted[conn].enabled
    && s.trusted[conn].rights.read && s.trusted[conn].rights.deleteAll
  }

  /** The step records this decision. */
  predicate Decides(s: Sys, c: L.Config, step: Step, d: S.Decision) {
    && step.LifeStep? && step.lifeStep.RecordEvent? && step.lifeStep.raw == d.raw && !S.Known(s.life, d.raw.update)
    && S.Decide(s.life.life.records, c, d.raw) == Some(d)
  }

  lemma DestructiveIsAllowed(s: Sys, c: L.Config, step: Step, d: S.Decision)
    requires WholeInv(s) && Decides(s, c, step, d) && d.destructive
    ensures OwnerAllows(s.trust.store, d.raw.key.conn)
    ensures L.DestructiveMode(s.life.life.records, c)
  {
    assert SoleId(s.trust.store.trusted) == d.raw.key.conn;
  }

  lemma NewlyPending(s: Sys, c: L.Config, step: Step, u: int)
    requires CanStep(s, step) && u in Next(s, c, step).life.pending
    requires S.PendingSound(s.life)
    ensures || (u in s.life.pending && s.life.pending[u] == Next(s, c, step).life.pending[u])
            || Decides(s, c, step, Next(s, c, step).life.pending[u])
  {
    if step.LifeStep? && !step.lifeStep.RecordEvent? { R.PendingShrinks(s.life, c, step.lifeStep); }
  }

  /** Step `k` recorded the decision that is pending after it. */
  ghost predicate DecidedBy(c: L.Config, states: seq<Sys>, steps: seq<Step>, k: nat, u: int)
    requires k < |steps| && k + 1 < |states| && u in states[k + 1].life.pending
  {
    Decides(states[k], c, steps[k], states[k + 1].life.pending[u])
  }

  lemma PendingBefore(c: L.Config, states: seq<Sys>, steps: seq<Step>, k: nat, u: int)
    requires IsRun(c, states, steps) && k < |steps| && u in states[k + 1].life.pending
    requires !DecidedBy(c, states, steps, k, u)
    ensures u in states[k].life.pending && states[k].life.pending[u] == states[k + 1].life.pending[u]
  {
    RunInv(c, states, steps, k);
    NewlyPending(states[k], c, steps[k], u);
  }

  lemma {:induction false} Decided(c: L.Config, states: seq<Sys>, steps: seq<Step>, n: nat, u: int) returns (i: nat)
    requires IsRun(c, states, steps) && n < |states| && u in states[n].life.pending
    ensures i < n && Decides(states[i], c, steps[i], states[n].life.pending[u])
  {
    assert n > 0;
    if DecidedBy(c, states, steps, n - 1, u) {
      i := n - 1;
    } else {
      PendingBefore(c, states, steps, n - 1, u);
      i := Decided(c, states, steps, n - 1, u);
    }
  }

  /** No step of the trust protocol blocks a conversation. */
  lemma TrustNeverBlocks(s: Sys, c: L.Config, step: Step, key: L.Key)
    requires CanStep(s, step) && step.TrustStep?
    ensures var after := L.StateOf(Next(s, c, step).life.life.records, key);
            after == L.StateOf(s.life.life.records, key) || after == L.New
  {
  }

  /**
   In every run, each entry into the spam block applies a decision that was made
   on a SPAM verdict, in destructive mode, while the gate was open and the
   connection was the only trusted one, the Owner's, confirmed, enabled and
   holding the rights to read and to delete.
   */
  lemma SpamBlockNeedsOwner(c: L.Config, states: seq<Sys>, steps: seq<Step>, j: nat, key: L.Key) returns (i: nat)
    requires IsRun(c, states, steps) && j < |steps|
    requires L.StateOf(states[j].life.life.records, key) != L.SpamSoftBlocked
    requires L.StateOf(states[j + 1].life.life.records, key) == L.SpamSoftBlocked
    ensures i < j && steps[i].LifeStep? && steps[i].lifeStep.RecordEvent? && steps[i].lifeStep.raw.key == key
    ensures steps[i].lifeStep.raw.verdict == L.Spam && L.DestructiveMode(states[i].life.life.records, c)
    ensures OwnerAllows(states[i].trust.store, key.conn)
  {
    RunInv(c, states, steps, j);
    var u := SpamApplied(states[j], c, steps[j], key);
    i := Decided(c, states, steps, j, u);
    RunInv(c, states, steps, i);
    DestructiveIsAllowed(states[i], c, steps[i], states[j].life.pending[u]);
  }

  lemma SpamApplied(s: Sys, c: L.Config, step: Step, key: L.Key) returns (u: int)
    requires WholeInv(s) && CanStep(s, step)
    requires L.StateOf(s.life.life.records, key) != L.SpamSoftBlocked
    requires L.StateOf(Next(s, c, step).life.life.records, key) == L.SpamSoftBlocked
    ensures u in s.life.pending && s.life.pending[u].destructive
    ensures s.life.pending[u].raw.key == key && s.life.pending[u].raw.verdict == L.Spam
  {
    if step.TrustStep? { TrustNeverBlocks(s, c, step, key); }
    R.BlockingStep(s.life, c, step.lifeStep, key);
    u := step.lifeStep.update;
  }

  // ----- dry-run after a loss of trust ---------------------------------------------------------------------------

  predicate DryRun(s: Sys) {
    s.life.life.records.destructive == Some(false)
  }

  /** Only an Owner command leaves dry-run. */
  predicate LeavesDryRun(step: Step) {
    && step.LifeStep? && step.lifeStep.OwnerCommand?
    && step.lifeStep.command.SwitchDryRun? && !step.lifeStep.command.dryRun
  }

  lemma DryRunStays(s: Sys, c: L.Config, step: Step)
    requires CanStep(s, step) && DryRun(s) && !LeavesDryRun(step)
    ensures DryRun(Next(s, c, step))
  {
    if step.LifeStep? { LifeKeepsDryRun(s.life, c, step.lifeStep); }
  }

  lemma LifeKeepsDryRun(s: S.Sys, c: L.Config, l: S.Step)
    requires S.CanStep(s, l) && s.life.records.destructive == Some(false)
    requires l.OwnerCommand? && l.command.SwitchDryRun? ==> l.command.dryRun
    ensures S.Next(s, c, l).life.records.destructive == Some(false)
  {
    match l
    case ApplyEvent(u) =>
      if S.AfterApplying(s, u).Some? { ApplyKeepsSettings(s.life, s.pending[u].raw, s.pending[u].action); }
    case OwnerCommand(u, command) =>
      if command.ResetChat? && S.CommandEffect(s.life, u, command).Some? {
        I.ResetRecords(s.life, u, command.key, command.now);
      }
    case _ =>
  }

  ghost predicate NoneLeavesDryRun(steps: seq<Step>, i: nat, j: nat)
    requires j <= |steps|
  {
    forall k :: i <= k < j ==> !LeavesDryRun(steps[k])
  }

  lemma DryRunAt(c: L.Config, states: seq<Sys>, steps: seq<Step>, i: nat, j: nat, k: nat)
    requires IsRun(c, states, steps) && i <= k < j <= |steps| && NoneLeavesDryRun(steps, i, j) && DryRun(states[k])
    ensures DryRun(states[k + 1])
  {
    DryRunStays(states[k], c, steps[k]);
  }

  lemma DryRunUntilCommand(c: L.Config, states: seq<Sys>, steps: seq<Step>, i: nat, j: nat)
    requires IsRun(c, states, steps) && i <= j < |states| && DryRun(states[i]) && NoneLeavesDryRun(steps, i, j)
    ensures DryRun(states[j])
  {
    for k := i to j
      invariant DryRun(states[k])
    {
      DryRunAt(c, states, steps, i, j, k);
    }
  }

  /**
   Once a connection has been disabled or replaced, no decision recorded
   afterwards is destructive until the Owner leaves dry-run.
   */
  lemma LossOfTrustDisarms(c: L.Config, states: seq<Sys>, steps: seq<Step>, i: nat, j: nat, d: S.Decision)
    requires IsRun(c, states, steps) && i < j < |steps| && steps[i].TrustStep?
    requires steps[i].trustStep.OutboxDisable? || Replaces(states[i].trust.store, states[i + 1].trust.store)
    requires NoneLeavesDryRun(steps, i + 1, j) && Decides(states[j], c, steps[j], d)
    ensures !d.destructive
  {
    assert DryRun(states[i + 1]);
    DryRunUntilCommand(c, states, steps, i + 1, j);
  }

  // ----- what a change of trust drags along ------------------------------------------------------------------------

  /** What conversations see of a trusted connection: a confirmed row behind an open gate, with its own rights. */
  lemma SeenExactly(s: Store, conn: string)
    ensures conn in VisibleRows(s) <==> s.gate.state == Ready && conn in s.trusted && s.trusted[conn].confirmed
    ensures conn in VisibleRows(s) ==>
              VisibleRows(s)[conn] == L.Visible(s.trusted[conn].enabled, s.trusted[conn].rights.reply,
                                                s.trusted[conn].rights.read, s.trusted[conn].rights.deleteAll)
  {
  }

  /**
   A step of the trust protocol forces dry-run exactly if it disables a
   connection for a rejected call or replaces one by another, and takes along
   exactly what is stored under connections that are no longer trusted.
   */
  lemma TrustStepDrags(s: Sys, c: L.Config, step: Step)
    requires CanStep(s, step) && step.TrustStep?
    ensures var t := Next(s, c, step);
            var trusted, r, u := t.trust.store.trusted, s.life.life.records, t.life.life.records;
            && t.trust == T.Next(s.trust, step.trustStep)
            && t.life == s.life.(life := s.life.life.(records := u, ledger := t.life.life.ledger))
            && u.rows == trusted.Keys && u.visible == VisibleRows(t.trust.store) && u.nextChallenge == r.nextChallenge
            && u.destructive == (if step.trustStep.OutboxDisable?
                                    || ((exists id :: id in s.trust.store.trusted && id !in trusted)
                                        && exists id :: id in trusted && id !in s.trust.store.trusted)
                                 then Some(false) else r.destructive)
            && (forall k :: k in u.conversations <==> k in r.conversations && k.conn in trusted)
            && (forall k :: k in u.conversations ==> u.conversations[k] == r.conversations[k])
            && (forall id :: id in u.challenges <==> id in r.challenges && r.challenges[id].key.conn in trusted)
            && (forall id :: id in u.challenges ==> u.challenges[id] == r.challenges[id])
            && (forall k :: k in t.life.life.ledger <==> k in s.life.life.ledger && k.0.conn in trusted)
            && (forall k :: k in t.life.life.ledger ==> t.life.life.ledger[k] == s.life.life.ledger[k])
  {
    ReplacesExactly(s.trust.store, Next(s, c, step).trust.store);
  }

  lemma ReplacesExactly(before: Store, after: Store)
    ensures Replaces(before, after) <==>
              && (exists id :: id in before.trusted && id !in after.trusted)
              && exists id :: id in after.trusted && id !in before.trusted
  {
    if id :| id in before.trusted && id !in after.trusted { assert id in before.trusted.Keys - after.trusted.Keys; }
    if id :| id in after.trusted && id !in before.trusted { assert id in after.trusted.Keys - before.trusted.Keys; }
    if Replaces(before, after) {
      var x :| x in before.trusted.Keys - after.trusted.Keys;
      var y :| y in after.trusted.Keys - before.trusted.Keys;
    }
  }

  /** A message judged SPAM while the Owner's connection allows it is blocked, whatever else the trust tables hold. */
  lemma SpamIsBlockedWhenAllowed(c: L.Config, states: seq<Sys>, steps: seq<Step>, i: nat)
    requires IsRun(c, states, steps) && i + 1 < |steps|
    requires steps[i].LifeStep? && steps[i].lifeStep.RecordEvent?
    requires steps[i + 1] == LifeStep(S.ApplyEvent(steps[i].lifeStep.raw.update))
    requires !S.Known(states[i].life, steps[i].lifeStep.raw.update)
    requires var raw := steps[i].lifeStep.raw;
             && (raw.kind == L.Inbound || raw.kind == L.EditedInbound) && raw.verdict == L.Spam
             && OwnerAllows(states[i].trust.store, raw.key.conn)
             && (states[i].life.life.records.destructive == Some(true))
             && D.InState(states[i].life.life.records, raw.key, {L.New, L.VerifyPending, L.VerifiedWaitingOwner})
    ensures var raw, r := steps[i].lifeStep.raw, states[i + 2].life.life.records;
            raw.key in r.conversations && r.conversations[raw.key].state == L.SpamSoftBlocked
  {
    RunInv(c, states, steps, i);
    RunInv(c, states, steps, i + 1);
    var raw := steps[i].lifeStep.raw;
    SeenExactly(states[i].trust.store, raw.key.conn);
    M.SpamDecided(states[i].life.life.records, c, raw);
    M.SpamApplied(states[i + 1].life, raw, L.Prepare(states[i].life.life.records, c, raw).value);
  }
}
