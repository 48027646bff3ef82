/** The update log as the recorder, the applier and the recovery loop change it. */
module EventStore {
  import opened Prelude
  import opened Batches
  import opened EventLog

  class EventTables<S, F> {
    var log: map<int, Entry<F>>
    var derived: S

    ghost function View(): Sys<S, F>
      reads this
    {
      Sys(log, derived)
    }

    constructor (s: Sys<S, F>)
      ensures View() == s
    {
      log, derived := s.log, s.derived;
    }

    /** Inserting, and gating the matching trusted row, is one transaction. */
    method RecordPreparedEvent<A>(g: Engine<S, F, A>, u: int, e: Event<F>) returns (receipt: Receipt)
      modifies this
      ensures View() == RecordEvent(g, old(View()), u, e)
      ensures receipt == ReceiptFor(old(View()), u)
    {
      if u !in log {
        log := log[u := Entry(e, false)];
        if e.connectionChanged && e.ignored {
          derived := g.gate(derived, e);
        }
        return Recorded;
      }
      return if log[u].applied then DuplicateApplied else DuplicateRecorded;
    }

    method ApplyRecordedEvent(apply: (S, Event<F>) -> Option<S>, u: int) returns (r: Result<ApplyReceipt, EventError>)
      modifies this
      ensures var spec := ApplyOne(apply, old(View()), u);
              if spec.Ok? then View() == spec.value && r.Ok? else View() == old(View()) && r == Err(spec.error)
      ensures r.Ok? ==> u in old(log) && (r.value == Applied <==> !old(log)[u].applied)
    {
      if u !in log {
        return Err(MissingUpdate);
      }
      if log[u].applied {
        return Ok(AlreadyApplied);
      }
      var effect := apply(derived, log[u].event);
      if effect.None? {
        return Err(Application);
      }
      derived := effect.value;
      log := log[u := log[u].(applied := true)];
      return Ok(Applied);
    }

    /** Applies what Telegram answered about a trigger's connection; an unsettled trigger stays recorded. */
    method ReconcileTrigger<A>(g: Engine<S, F, A>, u: int, answer: A) returns (settled: bool)
      modifies this
      ensures View() == ReconcileOne(g, old(View()), u, answer)
      ensures settled ==> u in log && log[u].applied
    {
      if u !in log || log[u].applied {
        return false;
      }
      var effect := g.reconcile(derived, log[u].event, answer);
      if effect.None? {
        return false;
      }
      derived := effect.value;
      log := log[u := log[u].(applied := true)];
      return true;
    }

    /** Records one update, then applies it, or settles it by a lookup if it reports a connection change. */
    method Process<A>(g: Engine<S, F, A>, u: int, e: Event<F>, answer: A) returns (r: Result<Receipt, EventError>)
      modifies this
      ensures var recorded := Next(g, old(View()), Record(u, e));
              View() == if ReceiptFor(old(View()), u) == DuplicateApplied then old(View())
                        else if e.connectionChanged then Next(g, recorded, Reconcile(u, answer))
                        else Next(g, recorded, Apply(u))
      ensures r.Ok? ==> r.value == ReceiptFor(old(View()), u) && u in log && (!e.connectionChanged ==> log[u].applied)
    {
      var receipt := RecordPreparedEvent(g, u, e);
      if receipt == DuplicateApplied {
        return Ok(receipt);
      }
      if e.connectionChanged {
        var _ := ReconcileTrigger(g, u, answer);
        return Ok(receipt);
      }
      var applied := ApplyRecordedEvent(g.apply, u);
      if applied.Err? {
        return Err(applied.error);
      }
      return Ok(receipt);
    }

    /** One history pass: the other tables first, then the updates that nothing names any more. */
    method PurgeHistory<A>(g: Engine<S, F, A>, now: int) returns (purged: nat)
      modifies this
      ensures View() == Next(g, old(View()), Purge(now))
      ensures purged == |set u | u in old(log) && Forgettable(g, old(View()), now, u)|
    {
      ghost var before := View();
      derived := g.prune(derived, now);
      var forgotten := set u | u in log && log[u].event.at <= now - UPDATE_RETENTION && !g.names(derived, u);
      assert forgotten == set u | u in before.log && Forgettable(g, before, now, u);
      log := map u | u in log && u !in forgotten :: log[u];
      return |forgotten|;
    }

    /** Replays what an interrupted worker left recorded, in update order. */
    method RecoverRecordedEvents(apply: (S, Event<F>) -> Option<S>) returns (r: Result<nat, EventError>)
      modifies this
      ensures var spec := Recover(apply, old(View()));
              View() == spec.after && r == if spec.failure.None? then Ok(spec.recovered) else Err(spec.failure.value)
      ensures r.Ok? ==> forall u :: u in log ==> log[u].applied || IsTrigger(log[u].event)
    {
      if Recover(apply, View()).failure.None? {
        RecoveryDrains(apply, View());
      }
      var pending := set u | u in log && !log[u].applied;
      assert pending == PendingIds(View());
      var ids := Sorted(pending);
      var recovered := 0;
      for i := 0 to |ids|
        invariant Replay(apply, View(), ids[i..], recovered) == Recover(apply, old(View()))
      {
        assert ids[i..][1..] == ids[i + 1..];
        if ids[i] in log && IsTrigger(log[ids[i]].event) {
          continue;
        }
        var applied := ApplyRecordedEvent(apply, ids[i]);
        if applied.Err? {
          return Err(applied.error);
        }
        if applied.value == Applied {
          recovered := recovered + 1;
        }
      }
      return Ok(recovered);
    }
  }
}
