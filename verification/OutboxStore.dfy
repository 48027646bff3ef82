/** The outbox table as the dispatcher updates it, proved to take exactly the steps of `Outbox`. */
module OutboxStore {
  import opened Prelude
  import opened Batches
  import opened Outbox
  import opened OutboxRuns
  import opened OutboxLaws

  datatype Outcome =
    | NothingDue
    | Done(id: int)
    | RetryScheduled(id: int, at: int)
    | LeftUncertain(id: int)
    | FailedForGood(id: int)

  /** The steps of one undisturbed dispatch. */
  function Dispatched(t: Table, now: int, ready: bool, found: Local, answer: Answer): Table {
    var held := Next(Sys(t, Idle), Claim(now, ready));
    if held.worker.Idle? then t
    else if CanStep(held, Refuse(found)) then Next(held, Refuse(found)).table
    else Next(Next(held, Call(answer)), Finish(now)).table
  }

  predicate Reports(outcome: Outcome, rows: map<int, Action>) {
    match outcome
    case NothingDue => true
    case Done(id) => id in rows && rows[id].status == Succeeded
    case RetryScheduled(id, at) => id in rows && rows[id].status == Retry && rows[id].nextAttempt == Some(at)
    case LeftUncertain(id) => id in rows && rows[id].status == Uncertain
    case FailedForGood(id) => id in rows && rows[id].status == PermanentFailure
  }

  lemma DispatchedInv(t: Table, now: int, ready: bool, found: Local, answer: Answer)
    requires TableInv(t)
    ensures TableInv(Dispatched(t, now, ready, found, answer))
  {
    var idle := Sys(t, Idle);
    StepInv(idle, Claim(now, ready));
    var held := Next(idle, Claim(now, ready));
    if !held.worker.Idle? {
      if CanStep(held, Refuse(found)) {
        StepInv(held, Refuse(found));
      } else {
        StepInv(held, Call(answer));
        StepInv(Next(held, Call(answer)), Finish(now));
      }
    }
  }

  class OutboxTable {
    var rows: map<int, Action>
    var nextId: int

    ghost function View(): Table
      reads this
    {
      Table(rows, nextId)
    }

    /** Counters and marks are as every run keeps them. */
    ghost predicate Valid()
      reads this
    {
      TableInv(View())
    }

    constructor (t: Table)
      ensures View() == t
    {
      rows, nextId := t.rows, t.nextId;
    }

    method Enqueue(kind: Kind, conn: Option<string>)
      modifies this
      ensures View() == Append(old(View()), kind, conn)
      ensures old(Valid()) ==> Valid()
    {
      rows := rows[nextId := Action(kind, conn, Pending, 0, None, None)];
      nextId := nextId + 1;
    }

    /** Claims the oldest due action and counts the attempt, unless an earlier claim was interrupted. */
    method ClaimDue(now: int, ready: bool) returns (w: Worker)
      modifies this`rows
      ensures Sys(View(), w) == Next(old(Sys(View(), Idle)), Claim(now, ready))
      ensures w.Idle? <==> forall id :: id in old(rows) ==> !Claimable(old(rows)[id], now, ready)
      ensures w.Idle? ==> rows == old(rows)
      ensures !w.Idle? ==> ClaimsLeast(old(rows), rows, w, now, ready)
    {
      ClaimsExactly(Sys(View(), Idle), now, ready);
      var due := set id | id in rows && IsDue(rows[id], now, ready);
      assert due == DueIds(rows, now, ready);
      assert forall id :: id in rows && IsDue(rows[id], now, ready) ==> id in due;
      if due == {} {
        return Idle;
      }
      var id := Minimum(due);
      var interrupted := rows[id].claimedAt.Some?;
      if !interrupted {
        rows := rows[id := rows[id].(attempts := rows[id].attempts + 1)];
      }
      rows := rows[id := rows[id].(claimedAt := Some(now))];
      return Holding(id, rows[id], interrupted);
    }

    method SetTerminal(id: int, status: Status) returns (ok: bool)
      modifies this`rows
      ensures ok == (id in old(rows) && Open(old(rows)[id]))
      ensures rows == if ok
              then old(rows)[id := old(rows)[id].(status := status, nextAttempt := None, claimedAt := None)]
                else old(rows)
      ensures old(Valid()) && (status.Succeeded? || status.Uncertain? || status.PermanentFailure?) ==> Valid()
    {
      if id !in rows || !Open(rows[id]) {
        return false;
      }
      rows := rows[id := rows[id].(status := status, nextAttempt := None, claimedAt := None)];
      return true;
    }

    method MarkRetry(id: int, at: int) returns (ok: bool)
      modifies this`rows
      ensures ok == (id in old(rows) && Open(old(rows)[id]))
      ensures rows == if ok
              then old(rows)[id := old(rows)[id].(status := Retry, nextAttempt := Some(at), claimedAt := None)]
                else old(rows)
      ensures old(Valid()) && (ok ==> 1 <= old(rows)[id].attempts < MAX_ATTEMPTS) ==> Valid()
    {
      if id !in rows || !Open(rows[id]) {
        return false;
      }
      rows := rows[id := rows[id].(status := Retry, nextAttempt := Some(at), claimedAt := None)];
      return true;
    }

    method FinishSuccess(id: int) returns (ok: bool)
      modifies this
      ensures View() == Settle(old(View()), id, Success)
      ensures ok == (id in old(rows) && Open(old(rows)[id]))
    {
      ok := SetTerminal(id, Succeeded);
    }

    method FinishUncertain(id: int, alert: bool) returns (ok: bool)
      modifies this
      ensures View() == Settle(old(View()), id, Ambiguous(alert))
      ensures ok == (id in old(rows) && Open(old(rows)[id]))
    {
      ok := SetTerminal(id, Uncertain);
      if ok && alert && rows[id].conn.Some? {
        Enqueue(SendOwnerMessage, rows[id].conn);
      }
    }

    method FinishPermanent(id: int, disable: bool) returns (ok: bool)
      modifies this
      ensures View() == Settle(old(View()), id, Permanent(disable))
      ensures ok == (id in old(rows) && Open(old(rows)[id]))
    {
      ok := SetTerminal(id, PermanentFailure);
      if ok && disable && rows[id].conn.Some? {
        Enqueue(SendOwnerMessage, rows[id].conn);
      }
    }

    /** Turns a failed call into a durable outcome. */
    method HandleTelegramFailure(id: int, held: Action, error: TelegramError, now: int) returns (outcome: Outcome)
      requires Valid() && id in rows && rows[id] == held && Open(held)
      modifies this
      ensures View() == Settle(old(View()), id, Classify(held.kind, held.attempts, error, now))
      ensures outcome != NothingDue && outcome.id == id && Reports(outcome, rows)
    {
      if AlreadyApplied(held.kind, error) {
        var _ := FinishSuccess(id);
        return Done(id);
      }
      if InvalidConnectionOrRight(error) {
        var _ := FinishPermanent(id, true);
        return FailedForGood(id);
      }
      if error == Timeout && !Idempotent(held.kind) {
        var _ := FinishUncertain(id, held.kind == SendChallenge);
        return LeftUncertain(id);
      }
      var delay := RetryDelay(error, held.attempts);
      if delay.Some? {
        var _ := MarkRetry(id, now + delay.value);
        return RetryScheduled(id, now + delay.value);
      }
      var _ := FinishPermanent(id, false);
      return FailedForGood(id);
    }

    /** Settles an action that is not called. */
    method FinishRefused(w: Worker, found: Local) returns (outcome: Outcome)
      requires Valid() && w.Holding? && w.id in rows && rows[w.id] == w.held && Open(w.held)
      modifies this
      ensures View() == Settle(old(View()), w.id, RefusalOf(w, found))
      ensures outcome != NothingDue && outcome.id == w.id && Reports(outcome, rows)
    {
      if w.interrupted && !Idempotent(w.held.kind) {
        var _ := FinishUncertain(w.id, w.held.kind == SendChallenge);
        return LeftUncertain(w.id);
      }
      match found {
        case Proceed =>
          var _ := FinishSuccess(w.id);
          outcome := Done(w.id);
        case UncertainDependency =>
          var _ := FinishUncertain(w.id, true);
          outcome := LeftUncertain(w.id);
        case RightsUnavailable =>
          var _ := FinishPermanent(w.id, true);
          outcome := FailedForGood(w.id);
        case Invalid =>
          var _ := FinishPermanent(w.id, false);
          outcome := FailedForGood(w.id);
      }
    }

    /** One dispatch: claim, decide or call, settle. */
    method DispatchNext(now: int, ready: bool, found: Local, answer: Answer) returns (outcome: Outcome)
      requires Valid()
      modifies this
      ensures View() == Dispatched(old(View()), now, ready, found, answer) && Valid()
      ensures Reports(outcome, rows)
      ensures outcome == NothingDue <==> forall id :: id in old(rows) ==> !Claimable(old(rows)[id], now, ready)
    {
      DispatchedInv(View(), now, ready, found, answer);
      var w := ClaimDue(now, ready);
      if w.Idle? {
        return NothingDue;
      }
      if (w.interrupted && !Idempotent(w.held.kind)) || found != Proceed || w.held.kind == ProposedDestructiveAction {
        outcome := FinishRefused(w, found);
        return;
      }
      match answer {
        case Delivered =>
          var _ := FinishSuccess(w.id);
          outcome := Done(w.id);
        case Failed(error) =>
          outcome := HandleTelegramFailure(w.id, w.held, error, now);
      }
    }
  }
}
