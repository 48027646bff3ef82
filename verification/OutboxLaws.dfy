/** What claiming, calling and settling achieve, said of the rows themselves; and that a retry waits for its time. */
module OutboxLaws {
  import opened Prelude
  import opened Batches
  import opened Outbox
  import opened OutboxRuns

  // ----- claiming ---------------------------------------------------------------------------

  /** Open, with its time come, and while readiness fails a message of the bot itself. */
  predicate Claimable(a: Action, now: int, ready: bool) {
    && (a.status == Pending || a.status == Retry)
    && (a.nextAttempt.None? || a.nextAttempt.value <= now)
    && (ready || (a.conn.None? && (a.kind == SendPrivateMessage || a.kind == SendOwnerMessage)))
  }

  /** The claim notes its time, and counts an attempt unless an earlier claim is still noted. */
  predicate ClaimedFrom(before: Action, after: Action, now: int) {
    && after.kind == before.kind && after.conn == before.conn && after.status == before.status
    && after.nextAttempt == before.nextAttempt && after.claimedAt == Some(now)
    && after.attempts == before.attempts + (if before.claimedAt.None? then 1 else 0)
  }

  /** The claimed row: the claimable one with the least ID. */
  predicate ClaimsLeast(before: map<int, Action>, after: map<int, Action>, w: Worker, now: int, ready: bool) {
    w.Holding? && w.id in before && Claimable(before[w.id], now, ready)
    && (forall id :: id in before && Claimable(before[id], now, ready) ==> w.id <= id)
    && ClaimedFrom(before[w.id], w.held, now) && (w.interrupted <==> before[w.id].claimedAt.Some?)
    && after == before[w.id := w.held]
  }

  lemma ClaimsExactly(s: Sys, now: int, ready: bool)
    requires s.worker.Idle?
    ensures var t := Next(s, Claim(now, ready));
            if exists id :: id in s.table.rows && Claimable(s.table.rows[id], now, ready)
            then ClaimsLeast(s.table.rows, t.table.rows, t.worker, now, ready) && t.table.nextId == s.table.nextId
            else t == s
  {
    var due := DueIds(s.table.rows, now, ready);
    forall id | id in s.table.rows ensures id in due <==> Claimable(s.table.rows[id], now, ready) {}
  }

  // ----- a retry waits ------------------------------------------------------------------------

  /** As long as the row is open it is up for a retry at this time. */
  predicate RetryDueAt(s: Sys, id: int, at: int) {
    && id < s.table.nextId
    && (id in s.table.rows && Open(s.table.rows[id]) ==>
          s.table.rows[id].status == Retry && s.table.rows[id].nextAttempt == Some(at))
  }

  /** The step ends a dispatch of this action. */
  predicate Settles(s: Sys, step: Step, id: int) {
    (step.Finish? || step.Refuse?) && !s.worker.Idle? && s.worker.id == id
  }

  lemma RetryStays(s: Sys, step: Step, id: int, at: int)
    requires Inv(s) && CanStep(s, step) && RetryDueAt(s, id, at) && !Settles(s, step, id)
    ensures RetryDueAt(Next(s, step), id, at)
  {
    if step.Claim? { ClaimsExactly(s, step.now, step.ready); }
  }

  lemma {:induction false} RetryKept(states: seq<Sys>, steps: seq<Step>, i: nat, j: nat, id: int, at: int)
    requires IsRun(states, steps) && i <= j < |states| && RetryDueAt(states[i], id, at)
    requires forall k :: i <= k < j ==> !Settles(states[k], steps[k], id)
    ensures RetryDueAt(states[j], id, at)
    decreases j
  {
    if i < j {
      RetryKept(states, steps, i, j - 1, id, at);
      RunInv(states, steps, j - 1);
      RetryStays(states[j - 1], steps[j - 1], id, at);
    }
  }

  /** The claim step takes this action. */
  predicate Takes(s: Sys, step: Step, id: int)
    requires CanStep(s, step)
  {
    step.Claim? && Next(s, step).worker.Holding? && Next(s, step).worker.id == id
  }

  /**
   Over every run: once an action is recorded for a retry at some time, nothing
   claims it before that time, interruptions included, until a dispatch of it
   has been settled again.
   */
  lemma RetryWaits(states: seq<Sys>, steps: seq<Step>, i: nat, j: nat, id: int, at: int)
    requires IsRun(states, steps) && i <= j < |steps|
    requires id in states[i].table.rows
    requires states[i].table.rows[id].status == Retry && states[i].table.rows[id].nextAttempt == Some(at)
    requires forall k :: i <= k < j ==> !Settles(states[k], steps[k], id)
    requires Takes(states[j], steps[j], id)
    ensures at <= steps[j].now
  {
    RunInv(states, steps, i);
    RetryKept(states, steps, i, j, id, at);
    ClaimsExactly(states[j], steps[j].now, steps[j].ready);
  }

  /** A failed call that may be repeated is repeated no sooner than the schedule or Telegram says. */
  lemma BackoffIsKept(states: seq<Sys>, steps: seq<Step>, i: nat, j: nat, id: int)
    requires IsRun(states, steps) && i < j < |steps| && steps[i].Finish? && states[i].worker.id == id
    requires RowIsOpen(states[i], id) && states[i].worker.answer.Failed?
    requires var w := states[i].worker; Classify(w.held.kind, w.held.attempts, w.answer.error, steps[i].now).RetryAt?
    requires forall k :: i < k < j ==> !Settles(states[k], steps[k], id)
    requires Takes(states[j], steps[j], id)
    ensures var w := states[i].worker;
            var delay := RetryDelay(w.answer.error, w.held.attempts);
            delay.Some? && steps[i].now + delay.value <= steps[j].now
  {
    RunInv(states, steps, i);
    FinishesExactly(states[i], steps[i].now);
    var w := states[i].worker;
    RetryWaits(states, steps, i + 1, j, id, steps[i].now + RetryDelay(w.answer.error, w.held.attempts).value);
  }

  // ----- what becomes of a call ------------------------------------------------------------------

  predicate OccursAt(s: string, text: string, i: int) {
    0 <= i <= |s| - |text| && s[i..i + |text|] == text
  }

  /** The text occurs somewhere. */
  ghost predicate Occurs(s: string, text: string) {
    exists i :: OccursAt(s, text, i)
  }

  lemma {:induction false} ContainsExactly(s: string, text: string)
    ensures Contains(s, text) <==> Occurs(s, text)
    decreases |s|
  {
    if |text| <= |s| {
      assert OccursAt(s, text, 0) <==> s[..|text|] == text;
      if s != "" {
        ContainsExactly(s[1..], text);
        forall i ensures OccursAt(s[1..], text, i) <==> 0 <= i && OccursAt(s, text, i + 1) {
          if 0 <= i && i + 1 <= |s| - |text| { assert s[1..][i..i + |text|] == s[i + 1..i + 1 + |text|]; }
        }
        if Occurs(s, text) && !OccursAt(s, text, 0) {
          var i :| OccursAt(s, text, i);
          assert OccursAt(s[1..], text, i - 1);
        }
      }
    }
  }

  /** Only ASCII capitals are folded, each to its own small letter. */
  lemma LowerCaseExactly(s: string, i: nat)
    requires i < |s|
    ensures |LowerCase(s)| == |s|
    ensures LowerCase(s)[i] == if 'A' <= s[i] <= 'Z' then (s[i] as int + 32) as char else s[i]
  {
  }

  /** Telegram says that the edit or the deletion has been made already. */
  ghost predicate SaysDone(kind: Kind, e: TelegramError) {
    && e.Api? && e.code == 400
    && (|| (kind == EditChallenge && Occurs(LowerCase(e.description), "message is not modified"))
        || (kind == DeleteBusinessMessages && Occurs(LowerCase(e.description), "message to delete not found")))
  }

  /** Telegram says that the connection or the right is gone. */
  ghost predicate SaysRefused(e: TelegramError) {
    && e.Api?
    && (|| Occurs(LowerCase(e.description), "business connection not found")
        || Occurs(LowerCase(e.description), "business connection is not enabled")
        || Occurs(LowerCase(e.description), "not enough rights")
        || Occurs(LowerCase(e.description), "has no rights"))
  }

  predicate Repeatable(kind: Kind) {
    kind != SendChallenge && kind != SendOwnerMessage && kind != SendPrivateMessage
  }

  /** Transport trouble, a rate limit or a server error, within the first six attempts. */
  predicate WorthRetrying(e: TelegramError, attempts: int) {
    attempts <= 6
    && (e.Timeout? || e.Transport? || e.Protocol? || (e.Api? && (e.code == 429 || (500 <= e.code && e.code <= 599))))
  }

  /** What becomes of a failed call, for every kind, attempt and error. */
  lemma ClassifiesExactly(kind: Kind, attempts: int, e: TelegramError, now: int)
    requires 1 <= attempts
    ensures var v := Classify(kind, attempts, e, now);
            var unsure := e.Timeout? && !Repeatable(kind);
            && (v == Success <==> SaysDone(kind, e))
            && (v == Permanent(true) <==> SaysRefused(e) && !SaysDone(kind, e))
            && (v.Ambiguous? <==> unsure) && (unsure ==> (v.alert <==> kind == SendChallenge))
            && (v.RetryAt? <==> WorthRetrying(e, attempts) && !unsure && !SaysDone(kind, e) && !SaysRefused(e))
            && (v.RetryAt? ==>
                  v.at - now == if e.Api? && e.code == 429 && e.retryAfter.Some?
                                then (if e.retryAfter.value < 60 then e.retryAfter.value else 60)
                                else if attempts == 6 then 30 else PowerOfTwo(attempts - 1))
            && (v == Permanent(false) <==>
                  !SaysDone(kind, e) && !SaysRefused(e) && !unsure && !WorthRetrying(e, attempts))
  {
    if e.Api? {
      var text := LowerCase(e.description);
      ContainsExactly(text, "message is not modified");
      ContainsExactly(text, "message to delete not found");
      ContainsExactly(text, "business connection not found");
      ContainsExactly(text, "business connection is not enabled");
      ContainsExactly(text, "not enough rights");
      ContainsExactly(text, "has no rights");
    }
    if attempts <= 6 && WorthRetrying(e, attempts) && !(e.Api? && e.code == 429 && e.retryAfter.Some?) {
      BackoffDoubles(e, attempts);
    }
  }

  // ----- what a settled row looks like -------------------------------------------------------------

  predicate RowIsOpen(s: Sys, id: int) {
    id in s.table.rows && (s.table.rows[id].status == Pending || s.table.rows[id].status == Retry)
  }

  /** The row has its final or its next status, and its claim is released. */
  predicate SettledTo(before: Action, after: Action, v: Verdict) {
    && after.kind == before.kind && after.conn == before.conn && after.attempts == before.attempts
    && after.claimedAt.None?
    && match v
       case Success => after.status == Succeeded && after.nextAttempt.None?
       case RetryAt(at) => after.status == Retry && after.nextAttempt == Some(at)
       case Ambiguous(_) => after.status == Uncertain && after.nextAttempt.None?
       case Permanent(_) => after.status == PermanentFailure && after.nextAttempt.None?
  }

  /** The Owner hears of an uncertain prompt and of a lost connection. */
  predicate OwnerIsTold(before: Action, v: Verdict) {
    before.conn.Some? && (v == Ambiguous(true) || v == Permanent(true))
  }

  /** Exactly this row is settled, and an alert is queued if the Owner is to be told. */
  predicate SettledIn(s: Sys, t: Sys, id: int, v: Verdict) {
    && t.worker.Idle?
    && if !RowIsOpen(s, id) then t.table == s.table
       else
         && id in t.table.rows && SettledTo(s.table.rows[id], t.table.rows[id], v)
         && if OwnerIsTold(s.table.rows[id], v)
            then && t.table.nextId == s.table.nextId + 1
                 && t.table.rows
                    == s.table.rows[id := t.table.rows[id]]
                       [s.table.nextId := Action(SendOwnerMessage, s.table.rows[id].conn, Pending, 0, None, None)]
            else t.table.nextId == s.table.nextId && t.table.rows == s.table.rows[id := t.table.rows[id]]
  }

  lemma SettlesExactly(s: Sys, id: int, v: Verdict)
    requires Inv(s)
    ensures SettledIn(s, Sys(Settle(s.table, id, v), Idle), id, v)
  {
  }

  /** The answer's verdict settles the action; a delivered call has succeeded. */
  lemma FinishesExactly(s: Sys, now: int)
    requires Inv(s) && CanStep(s, Finish(now))
    ensures var w, t := s.worker, Next(s, Finish(now));
            match w.answer
            case Delivered => SettledIn(s, t, w.id, Success)
            case Failed(e) => SettledIn(s, t, w.id, Classify(w.held.kind, w.held.attempts, e, now))
  {
    var w := s.worker;
    SettlesExactly(s, w.id, VerdictOf(w.held.kind, w.held.attempts, w.answer, now));
  }

  /**
   What is not called: an interrupted action that may have been delivered is left
   uncertain; missing rights end it with the connection disabled, an unusable
   payload without; an edit of an uncertain prompt is as uncertain as the prompt.
   */
  lemma RefusesExactly(s: Sys, found: Local)
    requires Inv(s) && CanStep(s, Refuse(found))
    ensures var w, t := s.worker, Next(s, Refuse(found));
            if w.interrupted && !Repeatable(w.held.kind) then
              SettledIn(s, t, w.id, Ambiguous(w.held.kind == SendChallenge))
            else match found
                 case Proceed => w.held.kind == ProposedDestructiveAction && SettledIn(s, t, w.id, Success)
                 case RightsUnavailable => SettledIn(s, t, w.id, Permanent(true))
                 case Invalid => SettledIn(s, t, w.id, Permanent(false))
                 case UncertainDependency => SettledIn(s, t, w.id, Ambiguous(true))
  {
    SettlesExactly(s, s.worker.id, RefusalOf(s.worker, found));
  }

  /** Which held actions are called: not a proposal, and not one that may have been delivered already. */
  lemma CalledExactly(s: Sys, answer: Answer)
    ensures CanStep(s, Call(answer)) <==>
              && s.worker.Holding? && s.worker.held.kind != ProposedDestructiveAction
              && (s.worker.interrupted ==> Repeatable(s.worker.held.kind))
    ensures CanStep(s, Call(answer)) ==>
              Next(s, Call(answer)) == Sys(s.table, Answered(s.worker.id, s.worker.held, answer))
  {
  }

  // ----- the surroundings -----------------------------------------------------------------------------

  /** A new action starts pending, under an ID never used before. */
  lemma InsertsExactly(s: Sys, kind: Kind, conn: Option<string>)
    ensures CanStep(s, Insert(kind, conn))
    ensures Next(s, Insert(kind, conn))
            == Sys(Table(s.table.rows[s.table.nextId := Action(kind, conn, Pending, 0, None, None)],
                         s.table.nextId + 1), s.worker)
  {
  }

  /** A replaced connection fails exactly its own unfinished actions. */
  lemma RetiresExactly(s: Sys, conn: string)
    ensures CanStep(s, Retire(conn))
    ensures var t := Next(s, Retire(conn));
            && t.worker == s.worker && t.table.nextId == s.table.nextId && t.table.rows.Keys == s.table.rows.Keys
            && forall id :: id in s.table.rows ==>
                 if RowIsOpen(s, id) && s.table.rows[id].conn == Some(conn)
                 then SettledTo(s.table.rows[id], t.table.rows[id], Permanent(false))
                 else t.table.rows[id] == s.table.rows[id]
  {
  }

  /** Retention deletes exactly the named rows, a crash forgets only the dispatch, and neither waits for anything. */
  lemma RemovesExactly(s: Sys, ids: set<int>, id: int)
    ensures CanStep(s, Remove(ids)) && CanStep(s, Lose) && Next(s, Lose) == Sys(s.table, Idle)
    ensures var t := Next(s, Remove(ids));
            && t.worker == s.worker && t.table.nextId == s.table.nextId
            && (id in t.table.rows <==> id in s.table.rows && id !in ids)
            && (id in t.table.rows ==> t.table.rows[id] == s.table.rows[id])
  {
  }
}
