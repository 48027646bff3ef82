/**
 The outbox: durable Telegram-side actions, the single dispatcher that claims,
 calls and settles them, and everything else that may touch the same rows while
 a call is in flight.
 */
module Outbox {
  import opened Prelude
  import opened Batches

  datatype Kind =
    | SendChallenge
    | EditChallenge
    | ReadBusinessMessage
    | DeleteBusinessMessages
    | SendOwnerMessage
    | SendPrivateMessage
    | ProposedDestructiveAction

  datatype Status = Pending | Retry | Succeeded | Uncertain | PermanentFailure

  datatype Action = Action(
    kind: Kind,
    conn: Option<string>,
    status: Status,
    attempts: int,
    claimedAt: Option<int>,
    nextAttempt: Option<int>)

  /** Row IDs are never reused. */
  datatype Table = Table(rows: map<int, Action>, nextId: int)

  predicate Open(a: Action) {
    a.status == Pending || a.status == Retry
  }

  predicate Idempotent(kind: Kind) {
    kind == EditChallenge || kind == ReadBusinessMessage || kind == DeleteBusinessMessages
      || kind == ProposedDestructiveAction
  }

  // ----- Telegram's answers ------------------------------------------------------------

  datatype TelegramError =
    | Timeout
    | Transport
    | Api(code: nat, description: string, retryAfter: Option<nat>)
    | Protocol
    | InvalidRequest

  datatype Answer = Delivered | Failed(error: TelegramError)

  function LowerCase(s: string): string {
    seq(|s|, i requires 0 <= i < |s| => if 'A' <= s[i] <= 'Z' then s[i] - 'A' + 'a' else s[i])
  }

  predicate Contains(s: string, needle: string) {
    |needle| <= |s| && (s[..|needle|] == needle || (s != "" && Contains(s[1..], needle)))
  }

  predicate AlreadyApplied(kind: Kind, e: TelegramError) {
    && e.Api? && e.code == 400
    && match kind
       case EditChallenge => Contains(LowerCase(e.description), "message is not modified")
       case DeleteBusinessMessages => Contains(LowerCase(e.description), "message to delete not found")
       case _ => false
  }

  predicate InvalidConnectionOrRight(e: TelegramError) {
    && e.Api?
    && (|| Contains(LowerCase(e.description), "business connection not found")
        || Contains(LowerCase(e.description), "business connection is not enabled")
        || Contains(LowerCase(e.description), "not enough rights")
        || Contains(LowerCase(e.description), "has no rights"))
  }

  const RETRY_SECONDS: seq<int> := [1, 2, 4, 8, 16, 30]

  predicate Retryable(e: TelegramError) {
    e.Timeout? || e.Transport? || e.Protocol? || (e.Api? && (e.code == 429 || 500 <= e.code <= 599))
  }

  function RetryDelay(e: TelegramError, attempts: int): (delay: Option<int>)
    ensures 1 <= attempts ==> (delay.Some? <==> attempts <= 6 && Retryable(e))
    ensures delay.Some? ==> 0 <= delay.value <= 60
    ensures delay.Some? && e.Api? && e.code == 429 && e.retryAfter.Some? ==>
              delay.value <= e.retryAfter.value && (delay.value < e.retryAfter.value ==> delay.value == 60)
  {
    if attempts > |RETRY_SECONDS| then None
    else if e.Api? && e.code == 429 && e.retryAfter.Some? then
      Some(if e.retryAfter.value < 60 then e.retryAfter.value else 60)
    else if Retryable(e) && 1 <= attempts then Some(RETRY_SECONDS[attempts - 1])
    else None
  }

  // ----- claiming and settling ------------------------------------------------------------

  predicate IsDue(a: Action, now: int, ready: bool) {
    && Open(a)
    && (a.nextAttempt.Some? ==> a.nextAttempt.value <= now)
    && (!ready ==> a.conn.None? && (a.kind == SendPrivateMessage || a.kind == SendOwnerMessage))
  }

  function DueIds(rows: map<int, Action>, now: int, ready: bool): set<int> {
    set id | id in rows && IsDue(rows[id], now, ready)
  }

  /** The attempt is counted before the call, unless the row was already claimed. */
  function Claimed(a: Action, now: int): Action {
    a.(attempts := a.attempts + (if a.claimedAt.Some? then 0 else 1), claimedAt := Some(now))
  }

  datatype Verdict =
    | Success
    | RetryAt(at: int)
    | Ambiguous(alert: bool)
    | Permanent(disable: bool)

  /** What becomes of an action whose call failed. */
  function Classify(kind: Kind, attempts: int, e: TelegramError, now: int): Verdict {
    if AlreadyApplied(kind, e) then Success
    else if InvalidConnectionOrRight(e) then Permanent(true)
    else if e.Timeout? && !Idempotent(kind) then Ambiguous(kind == SendChallenge)
    else if RetryDelay(e, attempts).Some? then RetryAt(now + RetryDelay(e, attempts).value)
    else Permanent(false)
  }

  function VerdictOf(kind: Kind, attempts: int, answer: Answer, now: int): Verdict {
    if answer.Delivered? then Success else Classify(kind, attempts, answer.error, now)
  }

  function Settled(a: Action, v: Verdict): Action {
    match v
    case Success => a.(status := Succeeded, nextAttempt := None, claimedAt := None)
    case RetryAt(at) => a.(status := Retry, nextAttempt := Some(at), claimedAt := None)
    case Ambiguous(_) => a.(status := Uncertain, nextAttempt := None, claimedAt := None)
    case Permanent(_) => a.(status := PermanentFailure, nextAttempt := None, claimedAt := None)
  }

  function Append(t: Table, kind: Kind, conn: Option<string>): Table {
    Table(t.rows[t.nextId := Action(kind, conn, Pending, 0, None, None)], t.nextId + 1)
  }

  predicate Alerts(v: Verdict) {
    (v.Ambiguous? && v.alert) || (v.Permanent? && v.disable)
  }

  /** Only an open row can be settled; otherwise the transaction is undone. */
  function Settle(t: Table, id: int, v: Verdict): Table {
    if id !in t.rows || !Open(t.rows[id]) then t
    else
      var settled := t.(rows := t.rows[id := Settled(t.rows[id], v)]);
      if Alerts(v) && t.rows[id].conn.Some? then Append(settled, SendOwnerMessage, t.rows[id].conn) else settled
  }

  // ----- the dispatcher and its surroundings ------------------------------------------------

  /** What the dispatcher finds before it calls. */
  datatype Local = Proceed | RightsUnavailable | Invalid | UncertainDependency

  datatype Worker =
    | Idle
    | Holding(id: int, held: Action, interrupted: bool)
    | Answered(id: int, held: Action, answer: Answer)

  datatype Sys = Sys(table: Table, worker: Worker)

  datatype Step =
    | Insert(kind: Kind, conn: Option<string>)
    | Claim(now: int, ready: bool)
    | Refuse(found: Local)
    | Call(answer: Answer)
    | Finish(now: int)
    | Lose
    | Retire(replaced: string)
    | Remove(ids: set<int>)

  /** An interrupted action that may already have been delivered is not called again. */
  predicate MayHaveBeenSent(w: Worker) {
    w.Holding? && w.interrupted && !Idempotent(w.held.kind)
  }

  predicate CanStep(s: Sys, step: Step) {
    match step
    case Insert(_, _) => true
    case Claim(_, _) => s.worker.Idle?
    case Refuse(found) =>
      s.worker.Holding?
        && (MayHaveBeenSent(s.worker) || found != Proceed || s.worker.held.kind == ProposedDestructiveAction)
    case Call(_) => s.worker.Holding? && !MayHaveBeenSent(s.worker) && s.worker.held.kind != ProposedDestructiveAction
    case Finish(_) => s.worker.Answered?
    case Lose => true
    case Retire(_) => true
    case Remove(_) => true
  }

  function RefusalOf(w: Worker, found: Local): Verdict
    requires w.Holding?
  {
    if MayHaveBeenSent(w) then Ambiguous(w.held.kind == SendChallenge)
    else match found
      case Proceed => Success
      case RightsUnavailable => Permanent(true)
      case Invalid => Permanent(false)
      case UncertainDependency => Ambiguous(true)
  }

  function ClaimNext(s: Sys, now: int, ready: bool): Sys {
    var due := DueIds(s.table.rows, now, ready);
    if due == {} then s
    else
      var id := Minimum(due);
      var row := s.table.rows[id];
      Sys(s.table.(rows := s.table.rows[id := Claimed(row, now)]), Holding(id, Claimed(row, now), row.claimedAt.Some?))
  }

  /** A replaced connection takes its unfinished actions with it. */
  function RetireAll(rows: map<int, Action>, conn: string): map<int, Action> {
    map id | id in rows ::
      if Open(rows[id]) && rows[id].conn == Some(conn) then Settled(rows[id], Permanent(false)) else rows[id]
  }

  function Next(s: Sys, step: Step): Sys
    requires CanStep(s, step)
  {
    match step
    case Insert(kind, conn) => s.(table := Append(s.table, kind, conn))
    case Claim(now, ready) => ClaimNext(s, now, ready)
    case Refuse(found) => Sys(Settle(s.table, s.worker.id, RefusalOf(s.worker, found)), Idle)
    case Call(answer) => s.(worker := Answered(s.worker.id, s.worker.held, answer))
    case Finish(now) =>
      Sys(Settle(s.table, s.worker.id, VerdictOf(s.worker.held.kind, s.worker.held.attempts, s.worker.answer, now)),
        Idle)
    case Lose => s.(worker := Idle)
    case Retire(conn) => s.(table := s.table.(rows := RetireAll(s.table.rows, conn)))
    case Remove(ids) => s.(table := s.table.(rows := s.table.rows - ids))
  }

  predicate Init(s: Sys) {
    s.table.rows == map[] && s.worker.Idle?
  }

  predicate IsRun(states: seq<Sys>, steps: seq<Step>) {
    && |states| == |steps| + 1
    && Init(states[0])
    && forall i :: 0 <= i < |steps| ==> CanStep(states[i], steps[i]) && states[i + 1] == Next(states[i], steps[i])
  }
}
