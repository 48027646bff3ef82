/** What every run of the outbox keeps, with a crash possible between any two steps. */
module OutboxRuns {
  import opened Prelude
  import opened Outbox

  const MAX_ATTEMPTS := 7

  /** One action's counters and marks. */
  predicate Fits(a: Action) {
    && 0 <= a.attempts <= MAX_ATTEMPTS
    && (a.claimedAt.Some? ==> Open(a) && 1 <= a.attempts)
    && (Open(a) && a.claimedAt.None? ==> a.attempts < MAX_ATTEMPTS)
    && (a.status == Pending && a.claimedAt.None? ==> a.attempts == 0)
    && (a.status == Retry ==> 1 <= a.attempts && a.nextAttempt.Some?)
    && (a.status != Retry ==> a.nextAttempt.None?)
  }

  predicate TableInv(t: Table) {
    forall id :: id in t.rows ==> id < t.nextId && Fits(t.rows[id])
  }

  /** The dispatcher's copy is current for as long as the row is open. */
  predicate WorkerInv(s: Sys) {
    !s.worker.Idle? ==>
      && s.worker.id < s.table.nextId
      && s.worker.held.claimedAt.Some? && Fits(s.worker.held)
      && (s.worker.id in s.table.rows && Open(s.table.rows[s.worker.id]) ==> s.table.rows[s.worker.id] == s.worker.held)
  }

  predicate Inv(s: Sys) {
    TableInv(s.table) && WorkerInv(s)
  }

  lemma ClassifyRetries(kind: Kind, attempts: int, answer: Answer, now: int)
    requires 1 <= attempts && VerdictOf(kind, attempts, answer, now).RetryAt?
    ensures attempts < MAX_ATTEMPTS && answer.Failed?
    ensures !Idempotent(kind) ==> answer.error != Timeout
  {
  }

  /**
   A failed call ends the action, unless it may be repeated: only an idempotent
   action counts as done after a rejection, exactly a timed-out non-idempotent
   one is left uncertain, and a retry is soon, retryable and within the bound.
   */
  lemma FailureVerdicts(kind: Kind, attempts: int, e: TelegramError, now: int)
    requires 1 <= attempts
    ensures var v := Classify(kind, attempts, e, now);
            && (v.Success? ==> Idempotent(kind) && e.Api? && e.code == 400)
            && (v.Ambiguous? <==> e.Timeout? && !Idempotent(kind))
            && (v.RetryAt? ==> Retryable(e) && attempts < MAX_ATTEMPTS && now <= v.at <= now + 60)
            && (Retryable(e) && attempts < MAX_ATTEMPTS && !e.Api? && (e.Timeout? ==> Idempotent(kind)) ==> v.RetryAt?)
            && (v.Permanent? && v.disable <==> InvalidConnectionOrRight(e) && !AlreadyApplied(kind, e))
  {
  }

  lemma SettleInv(t: Table, id: int, v: Verdict)
    requires TableInv(t)
    requires id in t.rows && Open(t.rows[id]) && v.RetryAt? ==> 1 <= t.rows[id].attempts < MAX_ATTEMPTS
    ensures TableInv(Settle(t, id, v))
  {
  }

  lemma StepInv(s: Sys, step: Step)
    requires Inv(s) && CanStep(s, step)
    ensures Inv(Next(s, step))
  {
    match step {
      case Refuse(found) => SettleInv(s.table, s.worker.id, RefusalOf(s.worker, found));
      case Finish(now) =>
        var v := VerdictOf(s.worker.held.kind, s.worker.held.attempts, s.worker.answer, now);
        if v.RetryAt? { ClassifyRetries(s.worker.held.kind, s.worker.held.attempts, s.worker.answer, now); }
        SettleInv(s.table, s.worker.id, v);
      case _ =>
    }
  }

  lemma {:induction false} RunInv(states: seq<Sys>, steps: seq<Step>, i: nat)
    requires IsRun(states, steps) && i < |states|
    ensures Inv(states[i])
  {
    if i > 0 {
      RunInv(states, steps, i - 1);
      StepInv(states[i - 1], steps[i - 1]);
    }
  }

  /**
   Attempts stay within the seven the schedule allows, a claimed action has at
   least one, and the next back-off is always defined for a held action.
   */
  lemma AttemptsAreBounded(states: seq<Sys>, steps: seq<Step>, i: nat)
    requires IsRun(states, steps) && i < |states|
    ensures forall id :: id in states[i].table.rows ==>
              var a := states[i].table.rows[id];
              && 0 <= a.attempts <= 7
              && (a.claimedAt.Some? ==> Open(a) && 1 <= a.attempts)
              && (a.nextAttempt.Some? <==> a.status == Retry)
    ensures states[i].worker.Answered? ==> 1 <= states[i].worker.held.attempts <= 7
  {
    RunInv(states, steps, i);
  }

  /** The schedule doubles from one second and is capped at thirty. */
  lemma BackoffDoubles(e: TelegramError, attempts: int)
    requires 1 <= attempts <= 6 && Retryable(e) && !(e.Api? && e.code == 429 && e.retryAfter.Some?)
    ensures RetryDelay(e, attempts) == Some(if attempts == 6 then 30 else PowerOfTwo(attempts - 1))
  {
    assert PowerOfTwo(0) == 1 && PowerOfTwo(1) == 2 && PowerOfTwo(2) == 4 && PowerOfTwo(3) == 8;
  }

  function PowerOfTwo(n: nat): int {
    if n == 0 then 1 else 2 * PowerOfTwo(n - 1)
  }

  // ----- terminal statuses ------------------------------------------------------------------

  /** The row is as given, or it is gone for good. */
  predicate KeptOrGone(t: Table, id: int, a: Action) {
    id < t.nextId && (id in t.rows ==> t.rows[id] == a)
  }

  lemma TerminalStep(s: Sys, step: Step, id: int, a: Action)
    requires Inv(s) && CanStep(s, step) && !Open(a) && KeptOrGone(s.table, id, a)
    ensures KeptOrGone(Next(s, step).table, id, a)
  {
  }

  /** A terminal row never changes again; it can only be deleted, and its ID does not come back. */
  lemma {:induction false} TerminalIsFinal(states: seq<Sys>, steps: seq<Step>, i: nat, j: nat, id: int)
    requires IsRun(states, steps) && i <= j < |states|
    requires id in states[i].table.rows && !Open(states[i].table.rows[id])
    ensures KeptOrGone(states[j].table, id, states[i].table.rows[id])
    decreases j
  {
    RunInv(states, steps, i);
    if i < j {
      TerminalIsFinal(states, steps, i, j - 1, id);
      RunInv(states, steps, j - 1);
      TerminalStep(states[j - 1], steps[j - 1], id, states[i].table.rows[id]);
    }
  }

  // ----- repeated sends -------------------------------------------------------------------------

  predicate CallsOn(s: Sys, step: Step, id: int) {
    step.Call? && s.worker.Holding? && s.worker.id == id
  }

  /** A non-idempotent action whose possible delivery is on record: it can no longer be called. */
  predicate Spent(s: Sys, id: int) {
    && id < s.table.nextId
    && !(s.worker.Answered? && s.worker.id == id)
    && (s.worker.Holding? && s.worker.id == id ==> MayHaveBeenSent(s.worker))
    && (id in s.table.rows ==>
          && !Idempotent(s.table.rows[id].kind)
          && (Open(s.table.rows[id]) ==> s.table.rows[id].claimedAt.Some?))
  }

  lemma SpentStep(s: Sys, step: Step, id: int)
    requires Inv(s) && CanStep(s, step) && Spent(s, id)
    ensures Spent(Next(s, step), id) && !CallsOn(s, step, id)
  {
  }

  /** The step commits a RETRY record for this very answer. */
  predicate RecordsRetry(s: Sys, step: Step, id: int, answer: Answer) {
    && CanStep(s, step) && step.Finish?
    && s.worker.id == id && s.worker.answer == answer && answer.Failed? && answer.error != Timeout
    && id in s.table.rows && id in Next(s, step).table.rows
    && Next(s, step).table.rows[id].status == Retry && Next(s, step).table.rows[id].claimedAt.None?
  }

  predicate RetryRecorded(states: seq<Sys>, steps: seq<Step>, i: nat, j: nat, id: int, answer: Answer)
    requires IsRun(states, steps) && j <= |steps|
  {
    exists k :: i < k < j && RecordsRetry(states[k], steps[k], id, answer)
  }

  predicate StillOut(s: Sys, id: int, answer: Answer) {
    && s.worker.Answered? && s.worker.id == id && s.worker.answer == answer && !Idempotent(s.worker.held.kind)
    && (id in s.table.rows ==>
          && s.table.rows[id].kind == s.worker.held.kind
          && (Open(s.table.rows[id]) ==> s.table.rows[id].claimedAt.Some?))
  }

  lemma OutStep(s: Sys, step: Step, id: int, answer: Answer)
    requires Inv(s) && CanStep(s, step) && StillOut(s, id, answer)
    ensures StillOut(Next(s, step), id, answer) || Spent(Next(s, step), id) || RecordsRetry(s, step, id, answer)
  {
    if step.Finish? && VerdictOf(s.worker.held.kind, s.worker.held.attempts, answer, step.now).RetryAt? {
      ClassifyRetries(s.worker.held.kind, s.worker.held.attempts, answer, step.now);
    }
  }

  predicate Outstanding(s: Sys, id: int, answer: Answer) {
    StillOut(s, id, answer) || Spent(s, id)
  }

  lemma OutstandingStep(s: Sys, step: Step, t: Sys, id: int, answer: Answer)
    requires Inv(s) && CanStep(s, step) && t == Next(s, step) && Outstanding(s, id, answer)
    ensures Outstanding(t, id, answer) || RecordsRetry(s, step, id, answer)
  {
    if Spent(s, id) {
      SpentStep(s, step, id);
    } else {
      OutStep(s, step, id, answer);
    }
  }

  lemma JustCalled(states: seq<Sys>, steps: seq<Step>, i: nat, id: int)
    requires IsRun(states, steps) && i < |steps| && CallsOn(states[i], steps[i], id)
    requires !Idempotent(states[i].worker.held.kind)
    ensures StillOut(states[i + 1], id, steps[i].answer)
  {
    RunInv(states, steps, i);
    KindIsCurrent(states, steps, i);
  }

  /** After a call nothing but the recorded retry of that call makes another call possible. */
  lemma {:induction false} AfterCall(states: seq<Sys>, steps: seq<Step>, i: nat, n: nat, id: int)
    requires IsRun(states, steps) && i < n < |states| && CallsOn(states[i], steps[i], id)
    requires !Idempotent(states[i].worker.held.kind)
    ensures Outstanding(states[n], id, steps[i].answer) || RetryRecorded(states, steps, i, n, id, steps[i].answer)
    decreases n
  {
    if n == i + 1 {
      JustCalled(states, steps, i, id);
    } else {
      AfterCall(states, steps, i, n - 1, id);
      RunInv(states, steps, n - 1);
      if Outstanding(states[n - 1], id, steps[i].answer) {
        OutstandingStep(states[n - 1], steps[n - 1], states[n], id, steps[i].answer);
      }
    }
  }

  /** The dispatcher's copy has the row's kind, open or not. */
  lemma {:induction false} KindIsCurrent(states: seq<Sys>, steps: seq<Step>, i: nat)
    requires IsRun(states, steps) && i < |states|
    ensures var s := states[i];
            !s.worker.Idle? && s.worker.id in s.table.rows ==> s.table.rows[s.worker.id].kind == s.worker.held.kind
  {
    if i > 0 {
      KindIsCurrent(states, steps, i - 1);
      RunInv(states, steps, i - 1);
    }
  }

  /**
   A non-idempotent action is called again only after the failure of the
   earlier call, other than a timeout, was committed as a RETRY record.
   */
  lemma ResendNeedsRecordedRetry(states: seq<Sys>, steps: seq<Step>, i: nat, j: nat, id: int)
    requires IsRun(states, steps) && i < j < |steps|
    requires CallsOn(states[i], steps[i], id) && CallsOn(states[j], steps[j], id)
    requires !Idempotent(states[i].worker.held.kind)
    ensures RetryRecorded(states, steps, i, j, id, steps[i].answer)
  {
    AfterCall(states, steps, i, j, id);
    RunInv(states, steps, j);
    if Spent(states[j], id) {
      SpentStep(states[j], steps[j], id);
    }
  }

  /** The contrapositive the design promises: after a delivery, a timeout or a lost answer there is no second call. */
  lemma NeverSentTwice(states: seq<Sys>, steps: seq<Step>, i: nat, j: nat, id: int)
    requires IsRun(states, steps) && i < j < |steps| && CallsOn(states[i], steps[i], id)
    requires !Idempotent(states[i].worker.held.kind)
    requires || steps[i].answer == Delivered
             || steps[i].answer == Failed(Timeout)
             || (exists l :: i < l < j && steps[l].Lose? && states[l].worker == states[i + 1].worker
                   && forall k :: i < k < l ==> !steps[k].Finish?)
    ensures !CallsOn(states[j], steps[j], id)
  {
    if CallsOn(states[j], steps[j], id) {
      ResendNeedsRecordedRetry(states, steps, i, j, id);
      if steps[i].answer != Delivered && steps[i].answer != Failed(Timeout) {
        var l :| i < l < j && steps[l].Lose? && states[l].worker == states[i + 1].worker
          && forall k :: i < k < l ==> !steps[k].Finish?;
        LostCall(states, steps, i, l, j, id);
      }
    }
  }

  /** Once the answer is lost the action is spent. */
  lemma {:induction false} LostCall(states: seq<Sys>, steps: seq<Step>, i: nat, l: nat, j: nat, id: int)
    requires IsRun(states, steps) && i < l < j < |states| && CallsOn(states[i], steps[i], id)
    requires !Idempotent(states[i].worker.held.kind)
    requires steps[l].Lose? && states[l].worker == states[i + 1].worker && forall k :: i < k < l ==> !steps[k].Finish?
    ensures Spent(states[j], id)
    decreases j
  {
    RunInv(states, steps, j - 1);
    if j == l + 1 {
      AfterCall(states, steps, i, l, id);
      assert !Spent(states[l], id);
      assert StillOut(states[l], id, steps[i].answer);
    } else {
      LostCall(states, steps, i, l, j - 1, id);
      SpentStep(states[j - 1], steps[j - 1], id);
    }
  }

  // ----- how many calls ---------------------------------------------------------------------------

  predicate ClaimsOn(s: Sys, step: Step, id: int) {
    && step.Claim?
    && ClaimNext(s, step.now, step.ready).worker.Holding? && ClaimNext(s, step.now, step.ready).worker.id == id
  }

  function Calls(states: seq<Sys>, steps: seq<Step>, id: int, n: nat): nat
    requires IsRun(states, steps) && n <= |steps|
  {
    if n == 0 then 0
    else Calls(states, steps, id, n - 1) + (if CallsOn(states[n - 1], steps[n - 1], id) then 1 else 0)
  }

  /** Dispatches that found the action already claimed, because an earlier one was interrupted. */
  function Interrupted(states: seq<Sys>, steps: seq<Step>, id: int, n: nat): nat
    requires IsRun(states, steps) && n <= |steps|
  {
    if n == 0 then 0
    else
      Interrupted(states, steps, id, n - 1)
      + (if states[n - 1].worker.Idle? && ClaimsOn(states[n - 1], steps[n - 1], id) && states[n].worker.interrupted
        then 1 else 0)
  }

  /** Calls made, plus the one that may be imminent, never exceed counted attempts plus interruptions. */
  predicate Accounted(s: Sys, id: int, calls: int, interrupted: int) {
    var due := calls + (if s.worker.Holding? && s.worker.id == id then 1 else 0) - interrupted;
    && due <= MAX_ATTEMPTS
    && (id in s.table.rows ==> due <= s.table.rows[id].attempts)
    && (id >= s.table.nextId ==> due <= 0)
  }

  lemma AccountStep(s: Sys, step: Step, id: int, calls: int, interrupted: int)
    requires Inv(s) && CanStep(s, step) && Accounted(s, id, calls, interrupted)
    ensures Accounted(Next(s, step), id, calls + (if CallsOn(s, step, id) then 1 else 0),
                      interrupted + (if ClaimsOn(s, step, id) && Next(s, step).worker.interrupted then 1 else 0))
  {
    StepInv(s, step);
  }

  lemma {:induction false} RunAccounted(states: seq<Sys>, steps: seq<Step>, id: int, n: nat)
    requires IsRun(states, steps) && n <= |steps|
    ensures Accounted(states[n], id, Calls(states, steps, id, n), Interrupted(states, steps, id, n))
  {
    if n > 0 {
      RunAccounted(states, steps, id, n - 1);
      RunInv(states, steps, n - 1);
      AccountStep(states[n - 1], steps[n - 1], id, Calls(states, steps, id, n - 1),
        Interrupted(states, steps, id, n - 1));
    }
  }

  /** In every run, one action is called at most seven times plus once per interrupted dispatch. */
  lemma CallsAreBounded(states: seq<Sys>, steps: seq<Step>, id: int, n: nat)
    requires IsRun(states, steps) && n <= |steps|
    ensures Calls(states, steps, id, n) <= 7 + Interrupted(states, steps, id, n)
  {
    RunAccounted(states, steps, id, n);
  }
}
