/**
 Trust and outbox together: the dispatcher asks the trust tables whether it may
 claim and whether it may call, and a rejected call writes back to them.
 */
module Joint {
  import opened Prelude
  import opened Trust
  import T = TrustSystem
  import opened TrustInvariant
  import TrustRuns
  import O = Outbox
  import OutboxRuns
  import OutboxLaws

  /** `cleared` says that the held action has passed its rights check. */
  datatype Sys = Sys(trust: T.Sys, outbox: O.Sys, cleared: bool)

  /** `Aside` is any step of the outbox that does not concern the dispatch in progress, or its loss. */
  datatype Step =
    | TrustStep(step: T.Step)
    | Claim(now: int)
    | CheckRight
    | Refuse(found: O.Local)
    | Call(answer: O.Answer)
    | Finish(now: int)
    | Aside(other: O.Step)

  function RightFor(kind: O.Kind): Option<RequiredRight> {
    match kind
    case SendChallenge => Some(Reply)
    case EditChallenge => Some(Reply)
    case ReadBusinessMessage => Some(Read)
    case DeleteBusinessMessages => Some(DeleteAll)
    case _ => None
  }

  /** The action acts on somebody's chat through a Business connection. */
  predicate Business(a: O.Action) {
    RightFor(a.kind).Some?
  }

  predicate IsReady(s: Sys, now: int) {
    ClassifyReadiness(s.trust.store, now).Some?
  }

  /** The rights check before a Business call. */
  predicate Passes(s: Store, a: O.Action) {
    Business(a) && a.conn.Some? && EnsureRight(s, a.conn.value, RightFor(a.kind).value)
  }

  predicate CanStep(s: Sys, step: Step) {
    match step
    case TrustStep(t) => T.CanStep(s.trust, t) && !t.OutboxDisable?
    case Claim(now) => O.CanStep(s.outbox, O.Claim(now, IsReady(s, now)))
    case CheckRight =>
      s.outbox.worker.Holding? && !O.MayHaveBeenSent(s.outbox.worker) && Passes(s.trust.store, s.outbox.worker.held)
    case Refuse(found) => O.CanStep(s.outbox, O.Refuse(found))
    case Call(answer) => O.CanStep(s.outbox, O.Call(answer)) && (Business(s.outbox.worker.held) ==> s.cleared)
    case Finish(now) => O.CanStep(s.outbox, O.Finish(now))
    case Aside(other) => other.Insert? || other.Lose? || other.Retire? || other.Remove?
  }

  /** The held action can still be settled. */
  predicate RowOpen(s: O.Sys) {
    !s.worker.Idle? && s.worker.id in s.table.rows && O.Open(s.table.rows[s.worker.id])
  }

  /** Settling as a permanent failure disables the connection in the same transaction, or fails if it is gone. */
  function Settle(s: Sys, step: O.Step, v: O.Verdict): Sys
    requires O.CanStep(s.outbox, step) && !s.outbox.worker.Idle?
  {
    var conn := s.outbox.worker.held.conn;
    if RowOpen(s.outbox) && v.Permanent? && v.disable && conn.Some? then
      if conn.value !in s.trust.store.trusted then s.(outbox := s.outbox.(worker := O.Idle), cleared := false)
      else Sys(s.trust.(store := Disable(s.trust.store, conn.value)), O.Next(s.outbox, step), false)
    else s.(outbox := O.Next(s.outbox, step), cleared := false)
  }

  ghost function Next(s: Sys, step: Step): Sys
    requires CanStep(s, step)
  {
    match step
    case TrustStep(t) => s.(trust := T.Next(s.trust, t))
    case Claim(now) => s.(outbox := O.Next(s.outbox, O.Claim(now, IsReady(s, now))), cleared := false)
    case CheckRight => s.(cleared := true)
    case Refuse(found) => Settle(s, O.Refuse(found), O.RefusalOf(s.outbox.worker, found))
    case Call(answer) => s.(outbox := O.Next(s.outbox, O.Call(answer)))
    case Finish(now) =>
      var w := s.outbox.worker;
      Settle(s, O.Finish(now), O.VerdictOf(w.held.kind, w.held.attempts, w.answer, now))
    case Aside(other) => s.(outbox := O.Next(s.outbox, other), cleared := s.cleared && !other.Lose?)
  }

  ghost predicate Init(s: Sys) {
    T.Init(s.trust) && O.Init(s.outbox) && !s.cleared
  }

  ghost predicate IsRun(states: seq<Sys>, steps: seq<Step>) {
    && |states| == |steps| + 1
    && Init(states[0])
    && forall i :: 0 <= i < |steps| ==> CanStep(states[i], steps[i]) && states[i + 1] == Next(states[i], steps[i])
  }

  // ----- the trust side -----------------------------------------------------------------------------

  lemma TrustSide(s: Sys, step: Step)
    requires Inv(s.trust) && CanStep(s, step)
    ensures Inv(Next(s, step).trust) && Advances(s.trust.store, Next(s, step).trust.store)
  {
    match step
    case TrustStep(t) => StepInv(s.trust, t);
    case Refuse(found) => SettleTrust(s, O.Refuse(found), O.RefusalOf(s.outbox.worker, found));
    case Finish(now) =>
      var w := s.outbox.worker;
      SettleTrust(s, O.Finish(now), O.VerdictOf(w.held.kind, w.held.attempts, w.answer, now));
    case _ => FlagsSound(s.trust.store, s.trust.store);
  }

  lemma SettleTrust(s: Sys, step: O.Step, v: O.Verdict)
    requires Inv(s.trust) && O.CanStep(s.outbox, step) && !s.outbox.worker.Idle?
    ensures Inv(Settle(s, step, v).trust) && Advances(s.trust.store, Settle(s, step, v).trust.store)
  {
    FlagsSound(s.trust.store, s.trust.store);
    if s.outbox.worker.held.conn.Some? { DisableInv(s.trust, s.outbox.worker.held.conn.value); }
  }

  lemma {:induction false} RunTrust(states: seq<Sys>, steps: seq<Step>, i: nat)
    requires IsRun(states, steps) && i < |states|
    ensures Inv(states[i].trust)
  {
    if i == 0 {
      InitInv(states[0].trust);
    } else {
      RunTrust(states, steps, i - 1);
      TrustSide(states[i - 1], steps[i - 1]);
    }
  }

  lemma {:induction false} RunTrustAdvances(states: seq<Sys>, steps: seq<Step>, i: nat, j: nat)
    requires IsRun(states, steps) && i <= j < |states|
    ensures Advances(states[i].trust.store, states[j].trust.store)
    decreases j
  {
    RunTrust(states, steps, i);
    if i == j {
      FlagsSound(states[i].trust.store, states[i].trust.store);
    } else {
      RunTrustAdvances(states, steps, i, j - 1);
      RunTrust(states, steps, j - 1);
      TrustSide(states[j - 1], steps[j - 1]);
      TrustRuns.AdvancesTransitive(states[i].trust.store, states[j - 1].trust.store, states[j].trust.store);
    }
  }

  // ----- the outbox side ----------------------------------------------------------------------------

  /** The outbox step that a joint step is; removing nothing is standing still. */
  ghost function OutboxLabel(s: Sys, step: Step): O.Step
    requires CanStep(s, step)
  {
    match step
    case TrustStep(_) => O.Remove({})
    case Claim(now) => O.Claim(now, IsReady(s, now))
    case CheckRight => O.Remove({})
    case Refuse(found) => if Next(s, step).outbox == O.Next(s.outbox, O.Refuse(found)) then O.Refuse(found) else O.Lose
    case Call(answer) => O.Call(answer)
    case Finish(now) => if Next(s, step).outbox == O.Next(s.outbox, O.Finish(now)) then O.Finish(now) else O.Lose
    case Aside(other) => other
  }

  lemma OutboxSide(s: Sys, step: Step)
    requires CanStep(s, step)
    ensures O.CanStep(s.outbox, OutboxLabel(s, step)) && Next(s, step).outbox == O.Next(s.outbox, OutboxLabel(s, step))
  {
    assert s.outbox.table.rows - {} == s.outbox.table.rows;
  }

  /** Every joint run is a run of the outbox, so everything proved of those holds here too. */
  lemma OutboxProjection(states: seq<Sys>, steps: seq<Step>) returns (outboxes: seq<O.Sys>, labels: seq<O.Step>)
    requires IsRun(states, steps)
    ensures O.IsRun(outboxes, labels) && |labels| == |steps|
    ensures forall i :: 0 <= i < |states| ==> outboxes[i] == states[i].outbox
    ensures forall i :: 0 <= i < |steps| ==> labels[i] == OutboxLabel(states[i], steps[i])
  {
    outboxes := seq(|states|, i requires 0 <= i < |states| => states[i].outbox);
    labels := seq(|steps|, i requires 0 <= i < |steps| && |steps| < |states| && CanStep(states[i], steps[i])
                           => OutboxLabel(states[i], steps[i]));
    forall i | 0 <= i < |labels|
      ensures O.CanStep(outboxes[i], labels[i]) && outboxes[i + 1] == O.Next(outboxes[i], labels[i])
    {
      OutboxSide(states[i], steps[i]);
    }
  }

  // ----- claims need readiness ------------------------------------------------------------------------

  /** The step claims an action that is bound to a connection or acts through one. */
  ghost predicate ClaimsBound(states: seq<Sys>, steps: seq<Step>, i: nat)
    requires i < |steps| < |states|
  {
    && steps[i].Claim? && states[i + 1].outbox.worker.Holding?
    && var a := states[i + 1].outbox.worker.held; a.conn.Some? || Business(a)
  }

  lemma BoundNeedsReady(s: O.Sys, now: int, ready: bool)
    requires s.worker.Idle? && O.ClaimNext(s, now, ready).worker.Holding?
    requires var a := O.ClaimNext(s, now, ready).worker.held; a.conn.Some? || Business(a)
    ensures ready
  {
  }

  /**
   In every run, an action bound to a connection is claimed only in a state that
   is ready: the gate is open, and a trusted connection is confirmed, without
   retained rivals and without an overflow.
   */
  lemma ClaimsNeedReadiness(states: seq<Sys>, steps: seq<Step>, i: nat)
    requires IsRun(states, steps) && i < |steps| && ClaimsBound(states, steps, i)
    ensures var s := states[i].trust.store;
            && ClassifyReadiness(s, steps[i].now).Some? && s.gate.state == Ready
            && forall id :: id in s.trusted ==>
                 && s.owner.Claimed? && s.trusted[id].owner == s.owner.user
                 && s.trusted[id].confirmed && s.guard.overflow.None?
                 && Fresh(s.candidates, steps[i].now - CANDIDATE_RETENTION) == map[]
  {
    RunTrust(states, steps, i);
    BoundNeedsReady(states[i].outbox, steps[i].now, IsReady(states[i], steps[i].now));
    TrustRuns.ReadinessAt(states[i].trust.store, steps[i].now);
  }

  /** Once candidates have overflowed, such an action is claimed only while no connection is trusted. */
  lemma OverflowStopsClaims(states: seq<Sys>, steps: seq<Step>, i: nat, j: nat)
    requires IsRun(states, steps) && i <= j < |steps| && ClaimsBound(states, steps, j)
    requires states[i].trust.store.guard.overflow.Some?
    ensures states[j].trust.store.trusted == map[]
  {
    RunTrustAdvances(states, steps, i, j);
    ClaimsNeedReadiness(states, steps, j);
    assert states[j].trust.store.trusted.Keys == {};
  }

  // ----- calls need rights ------------------------------------------------------------------------------

  /** The dispatcher held this very action when it was cleared at `i`, and ever since. */
  ghost predicate ClearedAt(states: seq<Sys>, steps: seq<Step>, i: nat, j: nat)
    requires i < j < |states| && j <= |steps|
  {
    && steps[i].CheckRight?
    && forall k :: i <= k <= j ==> states[k].outbox.worker == states[j].outbox.worker
  }

  lemma ClearedStep(s: Sys, step: Step)
    requires CanStep(s, step) && Next(s, step).cleared && (s.cleared ==> s.outbox.worker.Holding?)
    ensures step.CheckRight? || (s.cleared && (step.Call? || Next(s, step).outbox.worker == s.outbox.worker))
  {
  }

  lemma {:induction false} ClearedBefore(states: seq<Sys>, steps: seq<Step>, j: nat) returns (i: nat)
    requires IsRun(states, steps) && j <= |steps| && states[j].cleared && states[j].outbox.worker.Holding?
    ensures i < j && ClearedAt(states, steps, i, j)
  {
    assert j > 0;
    var s, step := states[j - 1], steps[j - 1];
    if step.CheckRight? {
      i := j - 1;
    } else {
      assert s.cleared && s.outbox.worker == states[j].outbox.worker;
      i := ClearedBefore(states, steps, j - 1);
    }
  }

  /**
   In every run, a Business call follows a rights check made for that very
   dispatch, at which the gate was open and the action's connection was the only
   trusted one, the Owner's, confirmed, enabled and holding the right: to reply
   for prompts and edits, to read, or to delete all messages.
   */
  lemma CallsNeedRights(states: seq<Sys>, steps: seq<Step>, j: nat) returns (i: nat)
    requires IsRun(states, steps) && j < |steps| && steps[j].Call?
    requires states[j].outbox.worker.held.kind
             in {O.SendChallenge, O.EditChallenge, O.ReadBusinessMessage, O.DeleteBusinessMessages}
    ensures i < j && ClearedAt(states, steps, i, j)
    ensures var s, a := states[i].trust.store, states[j].outbox.worker.held;
            && a.conn.Some? && s.gate.state == Ready && s.owner.Claimed?
            && s.trusted.Keys == {a.conn.value} && s.trusted[a.conn.value].owner == s.owner.user
            && s.trusted[a.conn.value].confirmed && s.trusted[a.conn.value].enabled
            && var rights := s.trusted[a.conn.value].rights;
               && (a.kind in {O.SendChallenge, O.EditChallenge} ==> rights.reply)
               && (a.kind == O.ReadBusinessMessage ==> rights.read)
               && (a.kind == O.DeleteBusinessMessages ==> rights.deleteAll)
  {
    i := ClearedBefore(states, steps, j);
    RunTrust(states, steps, i);
    TrustRuns.RightsCheckAt(states[i].trust.store, states[j].outbox.worker.held.conn.value,
                            RightFor(states[j].outbox.worker.held.kind).value);
  }

  // ----- a refused connection is disabled ------------------------------------------------------------------

  /** Telegram refused the call, or the rights check failed, for an action that can still be settled. */
  ghost predicate Rejected(s: Sys, step: Step) {
    && RowOpen(s.outbox) && s.outbox.worker.held.conn.Some?
    && match step
       case Refuse(found) =>
         found == O.RightsUnavailable && (s.outbox.worker.Holding? && !O.MayHaveBeenSent(s.outbox.worker))
       case Finish(_) =>
         && s.outbox.worker.Answered? && s.outbox.worker.answer.Failed?
         && OutboxLaws.SaysRefused(s.outbox.worker.answer.error)
         && !OutboxLaws.SaysDone(s.outbox.worker.held.kind, s.outbox.worker.answer.error)
       case _ => false
  }

  /**
   A rejection disables the action's connection in the transaction that fails the
   action and alerts the Owner; if the connection is gone, neither happens.
   */
  lemma RejectionDisables(s: Sys, step: Step)
    requires CanStep(s, step) && Rejected(s, step) && OutboxRuns.Inv(s.outbox)
    ensures var t, conn, id := Next(s, step), s.outbox.worker.held.conn.value, s.outbox.worker.id;
            if conn !in s.trust.store.trusted then t == s.(outbox := s.outbox.(worker := O.Idle), cleared := false)
            else && OutboxLaws.SettledIn(s.outbox, t.outbox, id, O.Permanent(true))
                 && t.trust == s.trust.(store := s.trust.store.(trusted := t.trust.store.trusted))
                 && t.trust.store.trusted.Keys == s.trust.store.trusted.Keys
                 && forall k :: k in s.trust.store.trusted ==>
                      var before, after := s.trust.store.trusted[k], t.trust.store.trusted[k];
                      if k == conn then after == before.(enabled := false, revision := before.revision + 1)
                      else after == before
  {
    var w := s.outbox.worker;
    match step
    case Refuse(found) => OutboxLaws.RefusesExactly(s.outbox, found);
    case Finish(now) =>
      OutboxLaws.ClassifiesExactly(w.held.kind, w.held.attempts, w.answer.error, now);
      OutboxLaws.FinishesExactly(s.outbox, now);
    case _ =>
  }

  /** Nothing else of the dispatch touches the trust tables. */
  lemma OnlyRejectionDisables(s: Sys, step: Step)
    requires CanStep(s, step) && OutboxRuns.Inv(s.outbox) && !step.TrustStep? && !Rejected(s, step)
    ensures Next(s, step).trust == s.trust
  {
    var w := s.outbox.worker;
    match step
    case Finish(now) =>
      if w.answer.Failed? {
        OutboxLaws.ClassifiesExactly(w.held.kind, w.held.attempts, w.answer.error, now);
      }
    case _ =>
  }

  // ----- the other steps -------------------------------------------------------------------------------------

  /** The trust side moves on by its own steps, unseen by the dispatch in progress. */
  lemma TrustMovesAlone(s: Sys, t: T.Step)
    requires CanStep(s, TrustStep(t))
    ensures Next(s, TrustStep(t)) == Sys(T.Next(s.trust, t), s.outbox, s.cleared)
  {
  }

  /** A claim sees the readiness of its moment, and the next rights check is its own. */
  lemma ClaimSeesReadiness(s: Sys, now: int)
    requires CanStep(s, Claim(now))
    ensures var t, ready := Next(s, Claim(now)), ClassifyReadiness(s.trust.store, now).Some?;
            && t.trust == s.trust && !t.cleared
            && if exists id :: id in s.outbox.table.rows && OutboxLaws.Claimable(s.outbox.table.rows[id], now, ready)
               then OutboxLaws.ClaimsLeast(s.outbox.table.rows, t.outbox.table.rows, t.outbox.worker, now, ready)
               else t.outbox == s.outbox
  {
    OutboxLaws.ClaimsExactly(s.outbox, now, ClassifyReadiness(s.trust.store, now).Some?);
  }

  /** A held Business action that passes its check may be called, and the call changes no table. */
  lemma CheckedMayCall(s: Sys, answer: O.Answer)
    requires CanStep(s, CheckRight)
    ensures var t := Next(s, CheckRight);
            && t == s.(cleared := true) && CanStep(t, Call(answer))
            && Next(t, Call(answer)).trust == s.trust && Next(t, Call(answer)).outbox.table == s.outbox.table
  {
  }

  /** When a Business action passes its check. */
  lemma PassesExactly(s: Store, a: O.Action)
    ensures Passes(s, a) <==>
              && a.conn.Some?
              && (|| (a.kind in {O.SendChallenge, O.EditChallenge} && EnsureRight(s, a.conn.value, Reply))
                  || (a.kind == O.ReadBusinessMessage && EnsureRight(s, a.conn.value, Read))
                  || (a.kind == O.DeleteBusinessMessages && EnsureRight(s, a.conn.value, DeleteAll)))
  {
  }
}
