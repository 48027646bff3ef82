/**
 The update log driving the conversation lifecycle, with the rows that keep an
 update in history: which updates can be forgotten, and what follows when one is
 delivered again.
 */
module LifecycleLog {
  import opened Prelude
  import opened Batches
  import opened Lifecycle
  import opened LifecycleInvariant
  import opened LifecycleEffects
  import opened EventLog
  import LifecycleExamples
  import LifecycleSystem
  import Arithmetic

  const LEDGER_RETENTION := 72 * 60 * 60
  const SUCCEEDED_RETENTION := 30 * 24 * 60 * 60
  const FAILED_RETENTION := 90 * 24 * 60 * 60
  const AUDIT_RETENTION := 90 * 24 * 60 * 60

  /** What the log stores of a business update; `traced` if it was prepared in dry-run for a known owner. */
  datatype Facts = Facts(raw: Raw, action: Prepared, traced: bool)

  datatype Audit = Audit(update: int, key: Key, at: int)

  /** When a queued action reached its final status. */
  datatype Finished = Finished(succeeded: bool, at: int)

  /**
   The lifecycle tables with audits by row ID, the final statuses of queued
   actions, dry-run traces by update, and the update each expiry edit is filed
   under.
   */
  datatype Tables = Tables(
    life: Life, audits: map<int, Audit>, nextAudit: int, finished: map<Idempotency, Finished>,
    traces: map<int, Option<Finished>>, filed: map<int, int>)

  // ----- what names an update ---------------------------------------------------------------------

  function SourceOf(d: Tables, q: Idempotency): Option<int> {
    match q
    case ByUpdate(update, _, _, _) => Some(update)
    case ByRetention(challenge) => if challenge in d.filed then Some(d.filed[challenge]) else None
  }

  predicate Queues(d: Tables, u: int) {
    exists q :: q in d.life.outbox && SourceOf(d, q) == Some(u)
  }

  predicate Audits(d: Tables, u: int) {
    exists a :: a in d.audits && d.audits[a].update == u
  }

  predicate Names(d: Tables, u: int) {
    Queues(d, u) || u in d.traces || Audits(d, u)
  }

  // ----- one history pass ---------------------------------------------------------------------------

  predicate Old(f: Finished, now: int) {
    f.at <= now - (if f.succeeded then SUCCEEDED_RETENTION else FAILED_RETENTION)
  }

  /** The newest audit of a spam-blocked conversation stays. */
  predicate Evidence(d: Tables, a: int)
    requires a in d.audits
  {
    && StateOf(d.life.records, d.audits[a].key) == SpamSoftBlocked
    && forall b :: b in d.audits && d.audits[b].key == d.audits[a].key ==> b <= a
  }

  function Prune(d: Tables, now: int): Tables {
    d.(life := d.life.(
         ledger := d.life.ledger - Purgeable(d.life.ledger, d.life.outbox, now - LEDGER_RETENTION),
         outbox := map q | q in d.life.outbox && !(q in d.finished && Old(d.finished[q], now)) :: d.life.outbox[q]),
       audits := map a | a in d.audits && (now - AUDIT_RETENTION < d.audits[a].at || Evidence(d, a)) :: d.audits[a],
       traces := map u | u in d.traces && !(d.traces[u].Some? && Old(d.traces[u].value, now)) :: d.traces[u])
  }

  // ----- the handler on these tables -------------------------------------------------------------------

  /** Inbound decisions are audited; in dry-run every event is traced. */
  function Handle(d: Tables, f: Facts): Option<Tables> {
    var life := Lifecycle.Apply(d.life, f.raw, f.action);
    if life.None? then None
    else
      var audited := if !f.action.InboundAction? then d
                     else d.(audits := d.audits[d.nextAudit := Audit(f.raw.update, f.raw.key, f.raw.at)],
                             nextAudit := d.nextAudit + 1);
      var traces := if f.traced && f.raw.update !in d.traces then d.traces[f.raw.update := None] else d.traces;
      Some(audited.(life := life.value, traces := traces))
  }

  function Handler(): EventLog.Engine<Tables, Facts, ()> {
    EventLog.Engine((d: Tables, e: Event<Facts>) => Handle(d, e.facts),
                    (d: Tables, e: Event<Facts>) => d,
                    (d: Tables, e: Event<Facts>, a: ()) => Some(d),
                    (d: Tables, e: Event<Facts>) => Some(d),
                    (d: Tables, now: int) => Prune(d, now),
                    (d: Tables, u: int) => Names(d, u))
  }

  function Posted(f: Facts): Event<Facts> {
    Event(false, false, f.raw.at, f)
  }

  // ----- which updates are forgotten, and when ------------------------------------------------------------

  /** The update leaves no row behind that names it. */
  predicate Silent(f: Facts) {
    !f.traced && !f.action.InboundAction? && f.action != BlockedInbound
  }

  lemma {:induction false} BatchesKeepQueue(
    s: Life, update: int, key: Key, batches: seq<seq<int>>, from: nat, q: Idempotency)
    requires q in s.outbox
    ensures q in EnqueueBatches(s, update, key, batches, from).outbox
    decreases |batches|
  {
    if batches != [] {
      var first := Enqueue(s, update, key, from, DeleteMessages(batches[0]));
      BatchesKeepQueue(first, update, key, batches[1..], from + 1, q);
    }
  }

  lemma PurgeKeepsQueue(s: Life, raw: Raw, q: Idempotency)
    requires q in s.outbox || q == ByUpdate(raw.update, NRead, raw.key, 0)
    ensures q in Lifecycle.Purge(s, raw).outbox
  {
    var read := Enqueue(s, raw.update, raw.key, 0, ReadMessage(raw.message));
    BatchesKeepQueue(read, raw.update, raw.key, Split(Sorted(EligibleIds(read, raw.key))), 0, q);
  }

  lemma IncorrectKeepsQueue(s: Life, raw: Raw, c: Conversation, o: Outcome, q: Idempotency)
    requires o.Incorrect? && ApplyIncorrect(s, raw, c, o).Some? && q in s.outbox
    ensures q in ApplyIncorrect(s, raw, c, o).value.life.outbox
  {
  }

  lemma OutcomeKeepsQueue(s: Life, raw: Raw, c: Conversation, o: Outcome, q: Idempotency)
    requires ApplyOutcome(s, raw, c, o).Some? && q in s.outbox
    ensures q in ApplyOutcome(s, raw, c, o).value.life.outbox
  {
    if o == SpamOutcome {
      PurgeKeepsQueue(s.(records := CloseActive(s.records, raw.key)), raw, q);
    } else if o.Incorrect? {
      IncorrectKeepsQueue(s, raw, c, o, q);
    }
  }

  /** Applying an event loses no queued action; re-blocking asks for the message to be read. */
  lemma ApplyKeepsQueue(s: Life, raw: Raw, a: Prepared, q: Idempotency)
    requires Lifecycle.Apply(s, raw, a).Some?
    requires q in s.outbox || (a == BlockedInbound && q == ByUpdate(raw.update, NRead, raw.key, 0))
    ensures q in Lifecycle.Apply(s, raw, a).value.outbox
  {
    match a
    case InboundAction(_, _, _) =>
      var created := GetOrCreate(s.records, raw.key, raw.at).value;
      var annotated := Annotate(s.(records := created), raw, a);
      OutcomeKeepsQueue(annotated, raw, created.conversations[raw.key], a.outcome, q);
    case BlockedInbound =>
      var created := GetOrCreate(s.records, raw.key, raw.at).value;
      PurgeKeepsQueue(RecordInbound(s.(records := Touch(created, raw.key, raw.at)), raw), raw, q);
    case _ =>
  }

  /** An update that nothing names yet is named after its application exactly if it is not silent; no other changes. */
  lemma NamedExactly(d: Tables, f: Facts, u: int)
    requires Handle(d, f).Some?
    requires u == f.raw.update ==> !Names(d, u)
    requires d.nextAudit !in d.audits
    ensures Names(Handle(d, f).value, u) <==> (if u == f.raw.update then !Silent(f) else Names(d, u))
  {
    var t := Handle(d, f).value;
    ApplyQueuedBy(d.life, f.raw, f.action);
    QueueExactly(d, f, u);
    AuditExactly(d, f, u);
  }

  lemma AuditExactly(d: Tables, f: Facts, u: int)
    requires Handle(d, f).Some? && d.nextAudit !in d.audits
    ensures Audits(Handle(d, f).value, u) <==> Audits(d, u) || (f.action.InboundAction? && u == f.raw.update)
  {
    var t := Handle(d, f).value;
    if Audits(d, u) {
      var a :| a in d.audits && d.audits[a].update == u;
      assert a in t.audits && t.audits[a].update == u;
    }
    if f.action.InboundAction? { assert d.nextAudit in t.audits; }
  }

  lemma QueueExactly(d: Tables, f: Facts, u: int)
    requires Handle(d, f).Some?
    ensures u != f.raw.update ==> (Queues(Handle(d, f).value, u) <==> Queues(d, u))
    ensures u == f.raw.update && f.action == BlockedInbound ==> Queues(Handle(d, f).value, u)
    ensures Silent(f) ==> (Queues(Handle(d, f).value, u) <==> Queues(d, u))
  {
    if Queues(d, u) { QueueStays(d, f, u); }
    if f.action == BlockedInbound {
      var q := ByUpdate(f.raw.update, NRead, f.raw.key, 0);
      ApplyKeepsQueue(d.life, f.raw, f.action, q);
      assert SourceOf(Handle(d, f).value, q) == Some(f.raw.update);
    }
    if Queues(Handle(d, f).value, u) && (u != f.raw.update || Silent(f)) { QueueWasThere(d, f, u); }
  }

  lemma QueueStays(d: Tables, f: Facts, u: int)
    requires Handle(d, f).Some? && Queues(d, u)
    ensures Queues(Handle(d, f).value, u)
  {
    var t := Handle(d, f).value;
    var q :| q in d.life.outbox && SourceOf(d, q) == Some(u);
    ApplyKeepsQueue(d.life, f.raw, f.action, q);
    assert q in t.life.outbox && SourceOf(t, q) == Some(u);
  }

  lemma QueueWasThere(d: Tables, f: Facts, u: int)
    requires Handle(d, f).Some? && Queues(Handle(d, f).value, u) && (u != f.raw.update || Silent(f))
    ensures Queues(d, u)
  {
    var t := Handle(d, f).value;
    ApplyQueuedBy(d.life, f.raw, f.action);
    var q :| q in t.life.outbox && SourceOf(t, q) == Some(u);
    if Silent(f) { SilentQueuesNothing(d.life, f); }
    assert q in d.life.outbox && SourceOf(d, q) == Some(u);
  }

  lemma SilentQueuesNothing(s: Life, f: Facts)
    requires Silent(f) && Lifecycle.Apply(s, f.raw, f.action).Some?
    ensures Lifecycle.Apply(s, f.raw, f.action).value.outbox == s.outbox
  {
  }

  /** A pass never adds a name, and drops one exactly when every row that carried it went. */
  lemma PassNames(d: Tables, now: int, u: int)
    ensures Names(Prune(d, now), u) <==>
              || (exists q :: q in d.life.outbox && SourceOf(d, q) == Some(u)
                    && !(q in d.finished && Old(d.finished[q], now)))
              || (u in d.traces && !(d.traces[u].Some? && Old(d.traces[u].value, now)))
              || (exists a :: a in d.audits && d.audits[a].update == u
                    && (now - AUDIT_RETENTION < d.audits[a].at || Evidence(d, a)))
  {
    var t := Prune(d, now);
    forall q ensures SourceOf(t, q) == SourceOf(d, q) {}
    if Queues(t, u) {
      var q :| q in t.life.outbox && SourceOf(t, q) == Some(u);
      assert q in d.life.outbox && SourceOf(d, q) == Some(u) && !(q in d.finished && Old(d.finished[q], now));
    }
    if q :| q in d.life.outbox && SourceOf(d, q) == Some(u) && !(q in d.finished && Old(d.finished[q], now)) {
      assert q in t.life.outbox && SourceOf(t, q) == Some(u);
    }
    PassAudits(d, now, u);
  }

  lemma PassAudits(d: Tables, now: int, u: int)
    ensures Audits(Prune(d, now), u) <==>
              exists a :: a in d.audits && d.audits[a].update == u
                && (now - AUDIT_RETENTION < d.audits[a].at || Evidence(d, a))
  {
    var t := Prune(d, now);
    if Audits(t, u) {
      var a :| a in t.audits && t.audits[a].update == u;
      assert a in d.audits && d.audits[a].update == u && (now - AUDIT_RETENTION < d.audits[a].at || Evidence(d, a));
    }
    if a :| a in d.audits && d.audits[a].update == u && (now - AUDIT_RETENTION < d.audits[a].at || Evidence(d, a)) {
      assert a in t.audits && t.audits[a].update == u;
    }
  }

  /** The rows that still keep the update at `now`: queued, traced or audited, and not old enough to go themselves. */
  predicate Kept(d: Tables, now: int, u: int) {
    Names(Prune(d, now), u)
  }

  /**
   For every applied business update and every date of the pass: delivered again,
   it takes effect again if and only if it is a week old and no row keeps it.
   */
  lemma BusinessRedeliveryExactly(s: EventLog.Sys<Tables, Facts>, now: int, u: int, f: Facts)
    requires u in s.log && s.log[u].applied && Handle(Prune(s.derived, now), f).Some?
    ensures var g := Handler();
            var recorded := Next(g, Next(g, s, EventLog.Purge(now)), Record(u, Posted(f)));
            CommitOf(g, recorded, EventLog.Apply(u)) == Some(Effected(u, Posted(f), ByHandler))
            <==> s.log[u].event.at <= now - UPDATE_RETENTION && !Kept(s.derived, now, u)
  {
    RedeliveryExactly(Handler(), s, now, u, Posted(f));
  }

  /** An update that left no row is forgotten by the first pass after its week; one with a young audit is not. */
  lemma ForgottenWhenSilent(s: EventLog.Sys<Tables, Facts>, now: int, u: int)
    requires u in s.log
    ensures !Names(s.derived, u) ==>
              (Forgettable(Handler(), s, now, u) <==> s.log[u].event.at <= now - UPDATE_RETENTION)
    ensures (exists a :: a in s.derived.audits && s.derived.audits[a].update == u
               && now - AUDIT_RETENTION < s.derived.audits[a].at) ==> !Forgettable(Handler(), s, now, u)
  {
    PassNames(s.derived, now, u);
    if !Names(s.derived, u) {
      assert !Queues(s.derived, u) && !Audits(s.derived, u);
    }
  }

  // ----- over runs ----------------------------------------------------------------------------------------

  /** Only an applied update that left rows may be named. */
  predicate MayBeNamed(s: EventLog.Sys<Tables, Facts>, u: int) {
    u in s.log && s.log[u].applied && !Silent(s.log[u].event.facts)
  }

  ghost predicate Tidy(s: EventLog.Sys<Tables, Facts>) {
    && (forall u :: u in s.log ==> s.log[u].event.facts.raw.update == u)
    && (forall u :: Names(s.derived, u) ==> MayBeNamed(s, u))
  }

  /** An update's facts carry its ID, and other writers name only updates that may be named. */
  ghost predicate Plain(s: EventLog.Sys<Tables, Facts>, step: EventLog.Step<Tables, Facts, ()>) {
    match step
    case Record(u, e) => e.facts.raw.update == u
    case Command(u, e) => e.facts.raw.update == u
    case Elsewhere(change) => forall u :: Names(change(s.derived), u) ==> Names(s.derived, u) || MayBeNamed(s, u)
    case _ => true
  }

  lemma NamesOnlyItsOwn(d: Tables, f: Facts, u: int)
    requires Handle(d, f).Some? && Names(Handle(d, f).value, u)
    ensures Names(d, u) || (u == f.raw.update && !Silent(f))
  {
    QueueExactly(d, f, u);
    var t := Handle(d, f).value;
    if Audits(t, u) {
      var a :| a in t.audits && t.audits[a].update == u;
      assert (a in d.audits && d.audits[a].update == u) || (f.action.InboundAction? && u == f.raw.update);
    }
  }

  lemma ApplicationTidy(s: EventLog.Sys<Tables, Facts>, v: int, u: int)
    requires Tidy(s) && Names(Next(Handler(), s, EventLog.Apply(v)).derived, u)
    ensures MayBeNamed(Next(Handler(), s, EventLog.Apply(v)), u)
  {
    if v in s.log && !s.log[v].applied && Handle(s.derived, s.log[v].event.facts).Some? {
      NamesOnlyItsOwn(s.derived, s.log[v].event.facts, u);
    }
  }

  lemma PassNamesLess(d: Tables, now: int, u: int)
    requires Names(Prune(d, now), u)
    ensures Names(d, u)
  {
    PassNames(d, now, u);
  }

  lemma StepTidy(s: EventLog.Sys<Tables, Facts>, step: EventLog.Step<Tables, Facts, ()>)
    requires Tidy(s) && Plain(s, step)
    ensures Tidy(Next(Handler(), s, step))
  {
    var t := Next(Handler(), s, step);
    forall u | Names(t.derived, u) ensures MayBeNamed(t, u) {
      match step
      case Apply(v) => ApplicationTidy(s, v, u);
      case Purge(now) => PassNamesLess(s.derived, now, u);
      case _ =>
    }
  }

  lemma TidyAt(states: seq<EventLog.Sys<Tables, Facts>>, steps: seq<EventLog.Step<Tables, Facts, ()>>, k: nat)
    requires IsRun(Handler(), states, steps) && k < |steps| && Tidy(states[k]) && Plain(states[k], steps[k])
    ensures Tidy(states[k + 1])
  {
    StepTidy(states[k], steps[k]);
  }

  lemma {:induction false} TidyRun(
    states: seq<EventLog.Sys<Tables, Facts>>, steps: seq<EventLog.Step<Tables, Facts, ()>>, i: nat)
    requires IsRun(Handler(), states, steps) && i < |states| && Tidy(states[0])
    requires forall k :: 0 <= k < i ==> Plain(states[k], steps[k])
    ensures Tidy(states[i])
  {
    if i > 0 {
      TidyRun(states, steps, i - 1);
      TidyAt(states, steps, i - 1);
    }
  }

  /**
   In every run, an applied update that leaves no rows (an owner's message, a
   deletion, a reply in a passed chat) takes effect again, when delivered after
   a history pass, if and only if it was received at least a week before it.
   */
  lemma SilentReplaysExactly(
    states: seq<EventLog.Sys<Tables, Facts>>, steps: seq<EventLog.Step<Tables, Facts, ()>>, i: nat, now: int, u: int)
    requires IsRun(Handler(), states, steps) && i < |states| && Tidy(states[0])
    requires forall k :: 0 <= k < i ==> Plain(states[k], steps[k])
    requires u in states[i].log && states[i].log[u].applied && Silent(states[i].log[u].event.facts)
    requires Handle(Prune(states[i].derived, now), states[i].log[u].event.facts).Some?
    ensures var e := Posted(states[i].log[u].event.facts);
            var recorded := Next(Handler(), Next(Handler(), states[i], EventLog.Purge(now)), Record(u, e));
            CommitOf(Handler(), recorded, EventLog.Apply(u)) == Some(Effected(u, e, ByHandler))
            <==> states[i].log[u].event.at <= now - UPDATE_RETENTION
  {
    TidyRun(states, steps, i);
    ForgottenWhenSilent(states[i], now, u);
    RedeliveryExactly(Handler(), states[i], now, u, Posted(states[i].log[u].event.facts));
  }

  // ----- the pass and the handler, row by row -----------------------------------------------------------------

  /** A final status is a month old, or three if the action failed. */
  predicate LongFinished(f: Finished, now: int) {
    if f.succeeded then f.at <= now - 30 * 86400 else f.at <= now - 90 * 86400
  }

  /** The newest audit of a chat that is blocked for spam. */
  ghost predicate KeptEvidence(d: Tables, a: int)
    requires a in d.audits
  {
    && d.audits[a].key in d.life.records.conversations
    && d.life.records.conversations[d.audits[a].key].state == SpamSoftBlocked
    && forall b :: b in d.audits && a < b ==> d.audits[b].key != d.audits[a].key
  }

  /** What the rest of a history pass deletes, and that it deletes nothing else. */
  lemma PassDeletesExactly(d: Tables, now: int)
    ensures var t := Prune(d, now);
            && t == d.(life := t.life, audits := t.audits, traces := t.traces)
            && t.life == d.life.(ledger := d.life.ledger - Purgeable(d.life.ledger, d.life.outbox, now - 3 * 86400),
                                 outbox := t.life.outbox)
            && (forall q :: q in t.life.outbox <==>
                  q in d.life.outbox && !(q in d.finished && LongFinished(d.finished[q], now)))
            && (forall q :: q in t.life.outbox ==> t.life.outbox[q] == d.life.outbox[q])
            && (forall a :: a in t.audits <==>
                  a in d.audits && (now - 90 * 86400 < d.audits[a].at || KeptEvidence(d, a)))
            && (forall a :: a in t.audits ==> t.audits[a] == d.audits[a])
            && (forall u :: u in t.traces <==>
                  u in d.traces && !(d.traces[u].Some? && LongFinished(d.traces[u].value, now)))
            && (forall u :: u in t.traces ==> t.traces[u] == d.traces[u])
  {
  }

  /** An inbound decision is audited under its update, a traced one leaves a trace; the rest is the lifecycle's. */
  lemma HandlesExactly(d: Tables, f: Facts)
    ensures var t, life := Handle(d, f), Lifecycle.Apply(d.life, f.raw, f.action);
            && (t.Some? <==> life.Some?)
            && (t.Some? ==>
                  && t.value.life == life.value && t.value.finished == d.finished && t.value.filed == d.filed
                  && t.value.traces == (if f.traced && f.raw.update !in d.traces then d.traces[f.raw.update := None]
                                        else d.traces)
                  && (if f.action.InboundAction?
                      then && t.value.audits == d.audits[d.nextAudit := Audit(f.raw.update, f.raw.key, f.raw.at)]
                           && t.value.nextAudit == d.nextAudit + 1
                      else t.value.audits == d.audits && t.value.nextAudit == d.nextAudit))
  {
  }

  /** What names an update: an action queued for it or filed under it, a trace, an audit. */
  lemma NamesAre(d: Tables, u: int)
    ensures Names(d, u) <==>
              || (exists q :: q in d.life.outbox
                    && ((q.ByUpdate? && q.update == u)
                        || (q.ByRetention? && q.challenge in d.filed && d.filed[q.challenge] == u)))
              || u in d.traces
              || exists a :: a in d.audits && d.audits[a].update == u
  {
    if q :| q in d.life.outbox && ((q.ByUpdate? && q.update == u)
                                   || (q.ByRetention? && q.challenge in d.filed && d.filed[q.challenge] == u))
    {
      assert SourceOf(d, q) == Some(u);
    }
    if Queues(d, u) {
      var q :| q in d.life.outbox && SourceOf(d, q) == Some(u);
      assert (q.ByUpdate? && q.update == u)
          || (q.ByRetention? && q.challenge in d.filed && d.filed[q.challenge] == u);
    }
  }
}
