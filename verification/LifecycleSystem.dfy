/**
 The conversation lifecycle as a state machine.  Updates are prepared and
 recorded; a recorded decision is applied at once, later, or in any order after
 failures.  Owner commands, expiry and purging share the worker; the outbox
 worker and connection changes may come at any moment.
 */
module LifecycleSystem {
  import opened Prelude
  import opened Batches
  import opened Lifecycle
  import opened LifecycleInvariant

  /** A recorded decision; `destructive` is what mode and rights were when it was made. */
  datatype Decision = Decision(raw: Raw, action: Prepared, destructive: bool)

  /** `pending` are the recorded updates, `applied` those already applied. */
  datatype Sys = Sys(life: Life, pending: map<int, Decision>, applied: set<int>)

  datatype Command =
    | ResetChat(key: Key, now: int)
    | UnblockChat(key: Key, now: int)
    | SwitchDryRun(conn: string, deleteSent: bool, dryRun: bool)

  /** `FailEvent` is an application undone by a storage error. */
  datatype Step =
    | RecordEvent(raw: Raw)
    | ApplyEvent(update: int)
    | FailEvent(update: int)
    | OwnerCommand(update: int, command: Command)
    | ExpirePass(now: int)
    | PurgeMessages(cutoff: int)
    | PurgeHistory(updates: set<int>)
    | PurgeActions(actions: set<Idempotency>)
    | UpgradeChallenges(canonical: set<int>)
    | PromptOutcome(challenge: int, message: Option<int>)
    | ForceDryRun
    | FinishAction(action: Idempotency)
    | ChangeVisibility(visible: map<string, Visible>)
    | AddConnection(conn: string)
    | RemoveConnection(conn: string)

  /** History goes only for updates without outbox rows, finished actions only. */
  predicate CanStep(s: Sys, step: Step) {
    match step
    case ApplyEvent(u) => u in s.pending
    case FailEvent(u) => u in s.pending
    case PurgeHistory(us) => forall q :: q in s.life.outbox && q.ByUpdate? ==> q.update !in us
    case PurgeActions(qs) => forall q :: q in qs && q in s.life.outbox ==> !s.life.outbox[q].unfinished
    case FinishAction(q) => q in s.life.outbox
    case ChangeVisibility(v) => forall conn :: conn in v ==> conn in s.life.records.rows
    case _ => true
  }

  predicate Known(s: Sys, update: int) {
    update in s.pending || update in s.applied
  }

  function Decide(r: Records, c: Config, raw: Raw): Option<Decision> {
    var action := Prepare(r, c, raw);
    if action.Err? then None
    else Some(Decision(raw, action.value, DestructiveMode(r, c) && CanDestroy(r, raw.key)))
  }

  function Record(s: Sys, c: Config, raw: Raw): Sys {
    var decision := Decide(s.life.records, c, raw);
    if Known(s, raw.update) || decision.None? then s
    else s.(pending := s.pending[raw.update := decision.value])
  }

  /** What applying the recorded decision would make of the tables. */
  function AfterApplying(s: Sys, update: int): Option<Life>
    requires update in s.pending
  {
    Apply(s.life, s.pending[update].raw, s.pending[update].action)
  }

  function ApplyRecorded(s: Sys, update: int): Sys
    requires update in s.pending
  {
    if AfterApplying(s, update).None? then s
    else Sys(AfterApplying(s, update).value, s.pending - {update}, s.applied + {update})
  }

  function CommandEffect(s: Life, update: int, command: Command): Option<Life> {
    match command
    case ResetChat(key, now) => Reset(s, update, key, now)
    case UnblockChat(key, now) =>
      var lifted := Unblock(s.records, key, now);
      if lifted.None? then None else Some(s.(records := lifted.value))
    case SwitchDryRun(conn, deleteSent, dryRun) =>
      var switched := SetDryRun(s.records, conn, deleteSent, dryRun);
      if switched.None? then None else Some(s.(records := switched.value))
  }

  /** A command is recorded as applied in the transaction that carries it out, also when it is refused. */
  function RunCommand(s: Sys, update: int, command: Command): Sys {
    if Known(s, update) then s
    else Sys(CommandEffect(s.life, update, command).GetOr(s.life), s.pending, s.applied + {update})
  }

  function DropRows(s: Life, conn: string): Life {
    s.(records := DropConnection(s.records, conn),
       ledger := map k | k in s.ledger && k.0.conn != conn :: s.ledger[k])
  }

  function Next(s: Sys, c: Config, step: Step): Sys
    requires CanStep(s, step)
  {
    var life, r := s.life, s.life.records;
    match step
    case RecordEvent(raw) => Record(s, c, raw)
    case ApplyEvent(update) => ApplyRecorded(s, update)
    case FailEvent(_) => s
    case OwnerCommand(update, command) => RunCommand(s, update, command)
    case ExpirePass(now) => s.(life := ExpireDue(life, now))
    case PurgeMessages(cutoff) => s.(life := life.(ledger := life.ledger - Purgeable(life.ledger, life.outbox, cutoff)))
    case PurgeHistory(us) => s.(pending := s.pending - us, applied := s.applied - us)
    case PurgeActions(qs) => s.(life := life.(outbox := life.outbox - qs))
    case UpgradeChallenges(canonical) => s.(life := life.(records := UpgradeKeys(r, c, canonical).GetOr(r)))
    case PromptOutcome(id, message) => s.(life := life.(records := PromptDelivered(r, id, message)))
    case ForceDryRun => s.(life := life.(records := r.(destructive := Some(false))))
    case FinishAction(q) => s.(life := life.(outbox := life.outbox[q := life.outbox[q].(unfinished := false)]))
    case ChangeVisibility(v) => s.(life := life.(records := r.(visible := v)))
    case AddConnection(conn) => s.(life := life.(records := r.(rows := r.rows + {conn})))
    case RemoveConnection(conn) => s.(life := DropRows(life, conn))
  }

  /** Destructive outcomes were decided in destructive mode with the rights for it. */
  predicate DecisionSound(d: Decision) {
    match d.action
    case InboundAction(verdict, outcome, _) =>
      && verdict == d.raw.verdict
      && (outcome == SpamOutcome ==> d.destructive && d.raw.verdict == Spam)
      && (outcome.Incorrect? && outcome.blockExpires.Some? ==> d.destructive)
    case BlockedInbound => d.destructive
    case _ => true
  }

  /** A decision names a challenge of its conversation, and one called exhausted has at most one attempt left. */
  predicate DecisionKept(r: Records, d: Decision) {
    && ActionNamesOwn(r, d.raw.key, d.action)
    && (d.action.InboundAction? && d.action.outcome.Incorrect? && d.action.outcome.exhausted
        && d.action.outcome.challenge in r.challenges ==>
          MAX_ATTEMPTS <= r.challenges[d.action.outcome.challenge].attempts + 1)
  }

  predicate PendingSound(s: Sys) {
    forall u :: u in s.pending ==>
      && u !in s.applied && s.pending[u].raw.update == u
      && DecisionSound(s.pending[u]) && DecisionKept(s.life.records, s.pending[u])
  }

  /** Any sound store, with whatever decisions and keys earlier runs of the program have left. */
  ghost predicate Init(s: Sys) {
    Inv(s.life.records) && PendingSound(s) && QueueKnown(s)
  }

  /** Every queued action stems from an applied update, or from retention. */
  predicate QueueKnown(s: Sys) {
    forall q :: q in s.life.outbox && q.ByUpdate? ==> q.update in s.applied
  }

  ghost predicate IsRun(c: Config, states: seq<Sys>, steps: seq<Step>) {
    && |states| == |steps| + 1
    && Init(states[0])
    && forall i :: 0 <= i < |steps| ==> CanStep(states[i], steps[i]) && states[i + 1] == Next(states[i], c, steps[i])
  }
}
