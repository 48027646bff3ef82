/**
 The record-then-apply log of Telegram updates.  What an event does to derived
 state is a parameter; the log decides when, and how often, it is done.
 */
module EventLog {
  import opened Prelude
  import opened Batches

  /** `connectionChanged` and `ignored` make an authoritative trigger; `at` dates the row that records the event. */
  datatype Event<F> = Event(connectionChanged: bool, ignored: bool, at: int, facts: F)

  datatype Entry<F> = Entry(event: Event<F>, applied: bool)

  datatype Sys<S, F> = Sys(log: map<int, Entry<F>>, derived: S)

  /**
   The effects: handler, trust gate, trigger reconciliation with Telegram's
   answer, owner command; what a history pass drops from the other tables, and
   whether an outbox or audit row names an update.
   */
  datatype Engine<!S, !F, !A> = Engine(
    apply: (S, Event<F>) -> Option<S>,
    gate: (S, Event<F>) -> S,
    reconcile: (S, Event<F>, A) -> Option<S>,
    command: (S, Event<F>) -> Option<S>,
    prune: (S, int) -> S,
    names: (S, int) -> bool)

  datatype Receipt = Recorded | DuplicateRecorded | DuplicateApplied

  datatype ApplyReceipt = Applied | AlreadyApplied

  datatype EventError = MissingUpdate | Application

  predicate IsTrigger<F>(e: Event<F>) {
    e.connectionChanged && e.ignored
  }

  // ----- the transactions -----------------------------------------------------------------

  function RecordEvent<S, F, A>(g: Engine<S, F, A>, s: Sys<S, F>, u: int, e: Event<F>): Sys<S, F> {
    if u in s.log then s
    else Sys(s.log[u := Entry(e, false)], if IsTrigger(e) then g.gate(s.derived, e) else s.derived)
  }

  function ReceiptFor<S, F>(s: Sys<S, F>, u: int): Receipt {
    if u !in s.log then Recorded else if s.log[u].applied then DuplicateApplied else DuplicateRecorded
  }

  /** The effect and the status flip commit together. */
  function ApplyOne<S, F>(apply: (S, Event<F>) -> Option<S>, s: Sys<S, F>, u: int): Result<Sys<S, F>, EventError> {
    if u !in s.log then Err(MissingUpdate)
    else if s.log[u].applied then Ok(s)
    else match apply(s.derived, s.log[u].event)
      case None => Err(Application)
      case Some(d) => Ok(Sys(s.log[u := s.log[u].(applied := true)], d))
  }

  function ReconcileOne<S, F, A>(g: Engine<S, F, A>, s: Sys<S, F>, u: int, answer: A): Sys<S, F> {
    if u !in s.log || s.log[u].applied then s
    else match g.reconcile(s.derived, s.log[u].event, answer)
      case None => s
      case Some(d) => Sys(s.log[u := s.log[u].(applied := true)], d)
  }

  /** Owner commands are inserted as applied, in the transaction that carries them out. */
  function CommandOne<S, F, A>(g: Engine<S, F, A>, s: Sys<S, F>, u: int, e: Event<F>): Sys<S, F> {
    if u in s.log then s
    else match g.command(s.derived, e)
      case None => s
      case Some(d) => Sys(s.log[u := Entry(e, true)], d)
  }

  const UPDATE_RETENTION := 7 * 24 * 60 * 60

  /** A history pass at `now` deletes the update: it is a week old, and nothing that survives the pass names it. */
  predicate Forgettable<S, F, A>(g: Engine<S, F, A>, s: Sys<S, F>, now: int, u: int) {
    u in s.log && s.log[u].event.at <= now - UPDATE_RETENTION && !g.names(g.prune(s.derived, now), u)
  }

  function HistoryPass<S, F, A>(g: Engine<S, F, A>, s: Sys<S, F>, now: int): Sys<S, F> {
    Sys(map u | u in s.log && !Forgettable(g, s, now, u) :: s.log[u], g.prune(s.derived, now))
  }

  function PendingIds<S, F>(s: Sys<S, F>): set<int> {
    set u | u in s.log && !s.log[u].applied
  }

  predicate HoldsTrigger<S, F>(s: Sys<S, F>, u: int) {
    u in s.log && IsTrigger(s.log[u].event)
  }

  datatype Recovery<S, F> = Recovery(after: Sys<S, F>, recovered: nat, failure: Option<EventError>)

  /** Replays the listed updates in order; the first failure ends the pass. */
  function Replay<S, F>(apply: (S, Event<F>) -> Option<S>, s: Sys<S, F>, ids: seq<int>, count: nat): Recovery<S, F>
    decreases |ids|
  {
    if ids == [] then Recovery(s, count, None)
    else if HoldsTrigger(s, ids[0]) then Replay(apply, s, ids[1..], count)
    else match ApplyOne(apply, s, ids[0])
      case Err(error) => Recovery(s, count, Some(error))
      case Ok(t) => Replay(apply, t, ids[1..], count + if ids[0] in s.log && !s.log[ids[0]].applied then 1 else 0)
  }

  function Recover<S, F>(apply: (S, Event<F>) -> Option<S>, s: Sys<S, F>): Recovery<S, F> {
    Replay(apply, s, Sorted(PendingIds(s)), 0)
  }

  // ----- runs -----------------------------------------------------------------------------------

  datatype Step<!S, F, A> =
    | Record(update: int, event: Event<F>)
    | Apply(update: int)
    | Reconcile(update: int, answer: A)
    | Command(update: int, event: Event<F>)
    | Elsewhere(change: S -> S)
    | Crash
    | Purge(now: int)

  function Next<S, F, A>(g: Engine<S, F, A>, s: Sys<S, F>, step: Step<S, F, A>): Sys<S, F> {
    match step
    case Record(u, e) => RecordEvent(g, s, u, e)
    case Apply(u) => (match ApplyOne(g.apply, s, u) case Ok(t) => t case Err(_) => s)
    case Reconcile(u, answer) => ReconcileOne(g, s, u, answer)
    case Command(u, e) => CommandOne(g, s, u, e)
    case Elsewhere(change) => s.(derived := change(s.derived))
    case Crash => s
    case Purge(now) => HistoryPass(g, s, now)
  }

  ghost predicate IsRun<S, F, A>(g: Engine<S, F, A>, states: seq<Sys<S, F>>, steps: seq<Step<S, F, A>>) {
    && |states| == |steps| + 1
    && states[0].log == map[]
    && forall i :: 0 <= i < |steps| ==> states[i + 1] == Next(g, states[i], steps[i])
  }

  // ----- derived state is a fold ------------------------------------------------------------------

  datatype How<A> = ByHandler | ByLookup(answer: A) | ByCommand

  datatype Commit<!S, F, A> =
    | Gated(gating: Event<F>)
    | Effected(update: int, event: Event<F>, how: How<A>)
    | Outside(change: S -> S)
    | Pruned(at: int)

  function Effect<S, F, A>(g: Engine<S, F, A>, d: S, c: Commit<S, F, A>): Option<S> {
    match c
    case Gated(e) => Some(g.gate(d, e))
    case Outside(change) => Some(change(d))
    case Pruned(now) => Some(g.prune(d, now))
    case Effected(_, e, how) =>
      match how
      case ByHandler => g.apply(d, e)
      case ByLookup(answer) => g.reconcile(d, e, answer)
      case ByCommand => g.command(d, e)
  }

  function Fold<S, F, A>(g: Engine<S, F, A>, d: S, commits: seq<Commit<S, F, A>>): Option<S> {
    if commits == [] then Some(d)
    else
      var before := Fold(g, d, commits[..|commits| - 1]);
      if before.None? then None else Effect(g, before.value, commits[|commits| - 1])
  }

  /** The change of derived state that a step commits, if any. */
  function CommitOf<S, F, A>(g: Engine<S, F, A>, s: Sys<S, F>, step: Step<S, F, A>): Option<Commit<S, F, A>> {
    match step
    case Record(u, e) => if u !in s.log && IsTrigger(e) then Some(Gated(e)) else None
    case Apply(u) =>
      if u in s.log && !s.log[u].applied && g.apply(s.derived, s.log[u].event).Some?
      then Some(Effected(u, s.log[u].event, ByHandler)) else None
    case Reconcile(u, answer) =>
      if && u in s.log && !s.log[u].applied
         && g.reconcile(s.derived, s.log[u].event, answer).Some?
      then Some(Effected(u, s.log[u].event, ByLookup(answer))) else None
    case Command(u, e) => if u !in s.log && g.command(s.derived, e).Some? then Some(Effected(u, e, ByCommand)) else None
    case Elsewhere(change) => Some(Outside(change))
    case Crash => None
    case Purge(now) => Some(Pruned(now))
  }

  ghost function Journal<S, F, A>(g: Engine<S, F, A>, states: seq<Sys<S, F>>, steps: seq<Step<S, F, A>>, n: nat)
    : seq<Commit<S, F, A>>
    requires n <= |steps| < |states|
  {
    if n == 0 then []
    else
      var c := CommitOf(g, states[n - 1], steps[n - 1]);
      Journal(g, states, steps, n - 1) + if c.Some? then [c.value] else []
  }

  lemma StepIsCommit<S, F, A>(g: Engine<S, F, A>, s: Sys<S, F>, step: Step<S, F, A>)
    ensures var c := CommitOf(g, s, step);
            if c.Some? then Effect(g, s.derived, c.value) == Some(Next(g, s, step).derived)
            else Next(g, s, step).derived == s.derived
  {
  }

  lemma FoldOneMore<S, F, A>(g: Engine<S, F, A>, d: S, commits: seq<Commit<S, F, A>>, c: Commit<S, F, A>)
    ensures var before := Fold(g, d, commits);
            Fold(g, d, commits + [c]) == if before.None? then None else Effect(g, before.value, c)
  {
    var all := commits + [c];
    assert all[..|all| - 1] == commits && all[|all| - 1] == c;
  }

  /**
   Derived state is at every moment the fold of the committed effects, in the
   order of their commits: a crash, a duplicate or a failed application
   contributes nothing.
   */
  lemma {:induction false} DerivedIsFold<S, F, A>(
    g: Engine<S, F, A>, states: seq<Sys<S, F>>, steps: seq<Step<S, F, A>>, n: nat)
    requires IsRun(g, states, steps) && n <= |steps|
    ensures Fold(g, states[0].derived, Journal(g, states, steps, n)) == Some(states[n].derived)
  {
    if n > 0 {
      DerivedIsFold(g, states, steps, n - 1);
      StepIsCommit(g, states[n - 1], steps[n - 1]);
      var before := Journal(g, states, steps, n - 1);
      var c := CommitOf(g, states[n - 1], steps[n - 1]);
      if c.Some? {
        FoldOneMore(g, states[0].derived, before, c.value);
      } else {
        assert Journal(g, states, steps, n) == before;
      }
    }
  }

  // ----- at most once -----------------------------------------------------------------------------

  ghost predicate EffectsAt<S, F, A>(
    g: Engine<S, F, A>, states: seq<Sys<S, F>>, steps: seq<Step<S, F, A>>, i: nat, u: int)
    requires i < |steps| < |states|
  {
    var c := CommitOf(g, states[i], steps[i]);
    c.Some? && c.value.Effected? && c.value.update == u
  }

  predicate Purges<S, F, A>(g: Engine<S, F, A>, s: Sys<S, F>, step: Step<S, F, A>, u: int) {
    step.Purge? && Forgettable(g, s, step.now, u)
  }

  ghost predicate Retained<S, F, A>(
    g: Engine<S, F, A>, states: seq<Sys<S, F>>, steps: seq<Step<S, F, A>>, i: nat, j: nat, u: int)
    requires j <= |steps| < |states|
  {
    forall k :: i <= k < j ==> !Purges(g, states[k], steps[k], u)
  }

  lemma {:induction false} StaysApplied<S, F, A>(
    g: Engine<S, F, A>, states: seq<Sys<S, F>>, steps: seq<Step<S, F, A>>, i: nat, j: nat, u: int)
    requires IsRun(g, states, steps) && i < j < |states|
    requires EffectsAt(g, states, steps, i, u) && Retained(g, states, steps, i, j, u)
    ensures u in states[j].log && states[j].log[u].applied
    decreases j
  {
    if i + 1 < j {
      StaysApplied(g, states, steps, i, j - 1, u);
      assert !Purges(g, states[j - 1], steps[j - 1], u);
    }
  }

  /** While no history pass forgets it, an update that took effect never does so again. */
  lemma EffectIsOnce<S, F, A>(
    g: Engine<S, F, A>, states: seq<Sys<S, F>>, steps: seq<Step<S, F, A>>, i: nat, j: nat, u: int)
    requires IsRun(g, states, steps) && i < j < |steps| && Retained(g, states, steps, i, j, u)
    requires EffectsAt(g, states, steps, i, u)
    ensures !EffectsAt(g, states, steps, j, u)
  {
    StaysApplied(g, states, steps, i, j, u);
  }

  /** Two effects of one update are separated by a pass that found it a week old and unnamed. */
  lemma TwiceOnlyIfForgotten<S, F, A>(
    g: Engine<S, F, A>, states: seq<Sys<S, F>>, steps: seq<Step<S, F, A>>, i: nat, j: nat, u: int) returns (k: nat)
    requires IsRun(g, states, steps) && i < j < |steps|
    requires EffectsAt(g, states, steps, i, u) && EffectsAt(g, states, steps, j, u)
    ensures i < k < j && steps[k].Purge? && Forgettable(g, states[k], steps[k].now, u)
  {
    if Retained(g, states, steps, i, j, u) {
      EffectIsOnce(g, states, steps, i, j, u);
      assert false;
    }
    k :| i <= k < j && Purges(g, states[k], steps[k], u);
    assert k != i;
  }

  /** Step `k` first recorded this content for the update, and the row has been kept until `n`. */
  ghost predicate FirstRecorded<S, F, A>(
    g: Engine<S, F, A>, states: seq<Sys<S, F>>, steps: seq<Step<S, F, A>>, k: nat, n: nat, u: int, e: Event<F>)
    requires k < n <= |steps| < |states|
  {
    steps[k] == Record(u, e) && u !in states[k].log && Retained(g, states, steps, k, n, u)
  }

  lemma {:induction false} Origin<S, F, A>(
    g: Engine<S, F, A>, states: seq<Sys<S, F>>, steps: seq<Step<S, F, A>>, n: nat, u: int) returns (k: nat)
    requires IsRun(g, states, steps) && n <= |steps| && u in states[n].log && !states[n].log[u].applied
    ensures k < n && FirstRecorded(g, states, steps, k, n, u, states[n].log[u].event)
  {
    assert n > 0;
    if u in states[n - 1].log {
      k := Origin(g, states, steps, n - 1, u);
      assert !Purges(g, states[n - 1], steps[n - 1], u);
    } else {
      k := n - 1;
    }
  }

  /** A redelivery with other content changes nothing: what takes effect is what was recorded first. */
  lemma FirstRecordingTakesEffect<S, F, A>(
    g: Engine<S, F, A>, states: seq<Sys<S, F>>, steps: seq<Step<S, F, A>>, i: nat, u: int) returns (k: nat)
    requires IsRun(g, states, steps) && i < |steps| && EffectsAt(g, states, steps, i, u) && !steps[i].Command?
    ensures k < i && FirstRecorded(g, states, steps, k, i, u, CommitOf(g, states[i], steps[i]).value.event)
  {
    k := Origin(g, states, steps, i, u);
  }

  /**
   An applied update that is delivered again after a history pass takes effect
   again if and only if the pass found it a week old and unnamed.
   */
  lemma RedeliveryExactly<S, F, A>(g: Engine<S, F, A>, s: Sys<S, F>, now: int, u: int, e: Event<F>)
    requires u in s.log && s.log[u].applied && !IsTrigger(e) && g.apply(g.prune(s.derived, now), e).Some?
    ensures var recorded := Next(g, Next(g, s, Purge(now)), Record(u, e));
            CommitOf(g, recorded, Apply(u)) == Some(Effected(u, e, ByHandler)) <==> Forgettable(g, s, now, u)
  {
    var passed := Next(g, s, Purge(now));
    assert u in passed.log <==> !Forgettable(g, s, now, u);
  }

  function Last<T>(states: seq<T>): T
    requires states != []
  {
    states[|states| - 1]
  }

  /** A run goes on by any step. */
  lemma Extend<S, F, A>(g: Engine<S, F, A>, states: seq<Sys<S, F>>, steps: seq<Step<S, F, A>>, step: Step<S, F, A>)
    returns (more: seq<Sys<S, F>>, labels: seq<Step<S, F, A>>)
    requires IsRun(g, states, steps)
    ensures IsRun(g, more, labels) && labels == steps + [step]
    ensures more == states + [Next(g, Last(states), step)]
  {
    more, labels := states + [Next(g, Last(states), step)], steps + [step];
    forall i | 0 <= i < |labels| ensures more[i + 1] == Next(g, more[i], labels[i]) {
      if i < |steps| { assert labels[i] == steps[i] && more[i] == states[i] && more[i + 1] == states[i + 1]; }
    }
  }

  /** Record, apply, something else, a history pass, the same again. */
  function Redelivery<S, F, A>(u: int, e: Event<F>, change: S -> S, now: int): seq<Step<S, F, A>> {
    [Record(u, e), Apply(u), Elsewhere(change), Purge(now), Record(u, e), Apply(u)]
  }

  /** The states of such a run, if the pass forgets the update. */
  function RedeliveryStates<S, F, A>(g: Engine<S, F, A>, d: S, u: int, e: Event<F>, change: S -> S, now: int)
    : (states: seq<Sys<S, F>>)
    ensures |states| == 7
  {
    var s0 := Sys(map[], d);
    var steps := Redelivery<S, F, A>(u, e, change, now);
    var s1 := Next(g, s0, steps[0]);
    var s2 := Next(g, s1, steps[1]);
    var s3 := Next(g, s2, steps[2]);
    var s4 := Next(g, s3, steps[3]);
    var s5 := Next(g, s4, steps[4]);
    [s0, s1, s2, s3, s4, s5, Next(g, s5, steps[5])]
  }

  /** In such a run the very same delivery takes effect a second time if and only if the pass forgot the first. */
  lemma PurgedThenRedelivered<S, F, A>(
    g: Engine<S, F, A>, d: S, u: int, e: Event<F>, change: S -> S, now: int)
    requires !IsTrigger(e) && g.apply(d, e).Some?
    requires g.apply(g.prune(change(g.apply(d, e).value), now), e).Some?
    ensures var states, steps := RedeliveryStates(g, d, u, e, change, now), Redelivery<S, F, A>(u, e, change, now);
            && IsRun(g, states, steps) && EffectsAt(g, states, steps, 1, u)
            && states[3].derived == change(g.apply(d, e).value)
            && (EffectsAt(g, states, steps, 5, u) <==> Forgettable(g, states[3], now, u))
  {
    var states, steps := RedeliveryStates(g, d, u, e, change, now), Redelivery<S, F, A>(u, e, change, now);
    assert states[2] == Sys(map[u := Entry(e, true)], g.apply(d, e).value);
    RedeliveryExactly(g, states[3], now, u, e);
  }

  /** One update, another one, a history pass, and the first one again. */
  function Again<S, F, A>(u: int, e: Event<F>, v: int, f: Event<F>, now: int): seq<Step<S, F, A>> {
    [Record(u, e), Apply(u), Record(v, f), Apply(v), Purge(now), Record(u, e), Apply(u)]
  }

  lemma ForgottenBetween<S, F, A>(g: Engine<S, F, A>, d: S, u: int, e: Event<F>, v: int, f: Event<F>, now: int)
    returns (states: seq<Sys<S, F>>)
    requires u != v && !IsTrigger(e) && !IsTrigger(f) && g.apply(d, e).Some? && g.apply(g.apply(d, e).value, f).Some?
    requires var d2 := g.apply(g.apply(d, e).value, f).value;
             g.apply(g.prune(d2, now), e).Some? && !g.names(g.prune(d2, now), u)
    requires e.at <= now - UPDATE_RETENTION
    ensures IsRun(g, states, Again(u, e, v, f, now)) && |states| == 8 && states[0] == Sys(map[], d)
    ensures EffectsAt(g, states, Again(u, e, v, f, now), 1, u) && EffectsAt(g, states, Again(u, e, v, f, now), 6, u)
    ensures states[5].derived == g.prune(g.apply(g.apply(d, e).value, f).value, now)
    ensures Some(states[7].derived) == g.apply(states[5].derived, e)
  {
    var steps := Again<S, F, A>(u, e, v, f, now);
    var s0 := Sys(map[], d);
    var s1 := Next(g, s0, steps[0]);
    var s2 := Next(g, s1, steps[1]);
    var s3 := Next(g, s2, steps[2]);
    var s4 := Next(g, s3, steps[3]);
    var s5 := Next(g, s4, steps[4]);
    var s6 := Next(g, s5, steps[5]);
    assert s4.log == map[u := Entry(e, true), v := Entry(f, true)];
    assert Forgettable(g, s4, now, u);
    states := [s0, s1, s2, s3, s4, s5, s6, Next(g, s6, steps[6])];
  }

  /** An update is recorded, its application fails, and something else happens. */
  function Failing<S, F, A>(u: int, e: Event<F>, change: S -> S): seq<Step<S, F, A>> {
    [Record(u, e), Crash, Elsewhere(change)]
  }

  lemma FailedRun<S, F, A>(g: Engine<S, F, A>, d: S, u: int, e: Event<F>, change: S -> S)
    returns (states: seq<Sys<S, F>>)
    requires !IsTrigger(e)
    ensures IsRun(g, states, Failing(u, e, change)) && |states| == 4 && states[0] == Sys(map[], d)
    ensures states[3] == Sys(map[u := Entry(e, false)], change(d))
  {
    var recorded := Sys(map[u := Entry(e, false)], d);
    states := [Sys(map[], d), recorded, recorded, recorded.(derived := change(d))];
  }

  // ----- recovery ----------------------------------------------------------------------------------

  lemma {:induction false} ReplayEffect<S, F>(
    apply: (S, Event<F>) -> Option<S>, s: Sys<S, F>, ids: seq<int>, count: nat)
    ensures var r := Replay(apply, s, ids, count);
            && r.after.log.Keys == s.log.Keys
            && (forall u :: u in s.log ==> r.after.log[u].event == s.log[u].event)
            && (forall u :: u in s.log && (s.log[u].applied || u !in ids || IsTrigger(s.log[u].event)) ==>
                  r.after.log[u] == s.log[u])
            && (r.failure.None? ==>
                  forall u :: u in ids ==> u in s.log && (r.after.log[u].applied || IsTrigger(s.log[u].event)))
    decreases |ids|
  {
    if ids != [] {
      if HoldsTrigger(s, ids[0]) {
        ReplayEffect(apply, s, ids[1..], count);
      } else if ApplyOne(apply, s, ids[0]).Ok? {
        var t := ApplyOne(apply, s, ids[0]).value;
        ReplayEffect(apply, t, ids[1..], count + if !s.log[ids[0]].applied then 1 else 0);
      }
    }
  }

  /**
   A recovery that reports success leaves only authoritative connection
   triggers unapplied, touches none of them and forgets no update.
   */
  lemma RecoveryDrains<S, F>(apply: (S, Event<F>) -> Option<S>, s: Sys<S, F>)
    requires Recover(apply, s).failure.None?
    ensures var t := Recover(apply, s).after;
            && t.log.Keys == s.log.Keys
            && forall u :: u in s.log ==>
                 && t.log[u].event == s.log[u].event
                 && (t.log[u].applied <==> s.log[u].applied || !IsTrigger(s.log[u].event))
  {
    SortedIsExact(PendingIds(s));
    ReplayEffect(apply, s, Sorted(PendingIds(s)), 0);
    var t := Recover(apply, s).after;
    forall u | u in s.log ensures t.log[u].applied <==> s.log[u].applied || !IsTrigger(s.log[u].event) {
      if !s.log[u].applied {
        assert u in PendingIds(s);
        assert u in Sorted(PendingIds(s));
      }
    }
  }

  /** If the first update to be replayed cannot be applied, recovery stops there and nothing is recovered. */
  lemma RecoveryStops<S, F>(apply: (S, Event<F>) -> Option<S>, s: Sys<S, F>, u: int)
    requires u in PendingIds(s) && !IsTrigger(s.log[u].event) && apply(s.derived, s.log[u].event).None?
    requires forall v :: v in PendingIds(s) ==> u <= v
    ensures Recover(apply, s) == Recovery(s, 0, Some(Application))
  {
    assert Minimum(PendingIds(s)) == u;
    assert Sorted(PendingIds(s))[0] == u;
  }

  /** The state after so many recoveries, one start-up after the other. */
  function Recoveries<S, F>(apply: (S, Event<F>) -> Option<S>, s: Sys<S, F>, n: nat): Sys<S, F> {
    if n == 0 then s else Recover(apply, Recoveries(apply, s, n - 1)).after
  }

  /** Such an update stops every later recovery as well: each reports the failure and changes nothing. */
  lemma {:induction false} RecoveryStopsForGood<S, F>(apply: (S, Event<F>) -> Option<S>, s: Sys<S, F>, u: int, n: nat)
    requires u in PendingIds(s) && !IsTrigger(s.log[u].event) && apply(s.derived, s.log[u].event).None?
    requires forall v :: v in PendingIds(s) ==> u <= v
    ensures Recoveries(apply, s, n) == s && Recover(apply, Recoveries(apply, s, n)) == Recovery(s, 0, Some(Application))
  {
    RecoveryStops(apply, s, u);
    if n > 0 { RecoveryStopsForGood(apply, s, u, n - 1); }
  }

  lemma {:induction false} ReplayCounts<S, F>(
    apply: (S, Event<F>) -> Option<S>, s: Sys<S, F>, ids: seq<int>, count: nat)
    ensures var r := Replay(apply, s, ids, 0);
            Replay(apply, s, ids, count) == Recovery(r.after, count + r.recovered, r.failure)
    decreases |ids|
  {
    if ids != [] {
      if HoldsTrigger(s, ids[0]) {
        ReplayCounts(apply, s, ids[1..], count);
      } else if ApplyOne(apply, s, ids[0]).Ok? {
        var t := ApplyOne(apply, s, ids[0]).value;
        var extra := if !s.log[ids[0]].applied then 1 else 0;
        ReplayCounts(apply, t, ids[1..], extra);
        ReplayCounts(apply, t, ids[1..], count + extra);
      }
    }
  }

  lemma {:induction false} ReplaySplits<S, F>(
    apply: (S, Event<F>) -> Option<S>, s: Sys<S, F>, first: seq<int>, rest: seq<int>, count: nat)
    requires Replay(apply, s, first, count).failure.None?
    ensures var r := Replay(apply, s, first, count);
            Replay(apply, s, first + rest, count) == Replay(apply, r.after, rest, r.recovered)
    decreases |first|
  {
    if first == [] {
      assert first + rest == rest;
    } else {
      assert (first + rest)[1..] == first[1..] + rest;
      if HoldsTrigger(s, first[0]) {
        ReplaySplits(apply, s, first[1..], rest, count);
      } else {
        var t := ApplyOne(apply, s, first[0]).value;
        ReplaySplits(apply, t, first[1..], rest, count + if !s.log[first[0]].applied then 1 else 0);
      }
    }
  }

  /** Nothing is left to do for this update. */
  predicate Idle<S, F>(s: Sys<S, F>, u: int) {
    u in s.log && (s.log[u].applied || IsTrigger(s.log[u].event))
  }

  lemma {:induction false} ReplayIgnoresPrefix<S, F>(
    apply: (S, Event<F>) -> Option<S>, s: Sys<S, F>, done: seq<int>, rest: seq<int>, count: nat)
    requires forall u :: u in done ==> Idle(s, u)
    ensures Replay(apply, s, done + rest, count) == Replay(apply, s, rest, count)
    decreases |done|
  {
    if done == [] {
      assert done + rest == rest;
    } else {
      assert (done + rest)[1..] == done[1..] + rest;
      assert Idle(s, done[0]);
      ReplayIgnoresPrefix(apply, s, done[1..], rest, count);
    }
  }

  lemma {:induction false} ReplayIgnores<S, F>(
    apply: (S, Event<F>) -> Option<S>, s: Sys<S, F>, all: set<int>, needed: set<int>, count: nat)
    requires needed <= all && forall u :: u in all && u !in needed ==> Idle(s, u)
    ensures Replay(apply, s, Sorted(all), count) == Replay(apply, s, Sorted(needed), count)
    decreases |all|
  {
    if all != {} {
      var m := Minimum(all);
      assert Sorted(all)[1..] == Sorted(all - {m});
      if m !in needed {
        assert Idle(s, m);
        ReplayIgnores(apply, s, all - {m}, needed, count);
      } else {
        assert Minimum(needed) == m;
        assert Sorted(needed)[1..] == Sorted(needed - {m});
        if HoldsTrigger(s, m) {
          ReplayIgnores(apply, s, all - {m}, needed - {m}, count);
        } else if ApplyOne(apply, s, m).Ok? {
          ReplayIgnores(apply, ApplyOne(apply, s, m).value, all - {m}, needed - {m},
                        count + if !s.log[m].applied then 1 else 0);
        }
      }
    }
  }

  lemma CutIsClean<S, F>(apply: (S, Event<F>) -> Option<S>, s: Sys<S, F>, done: seq<int>)
    requires Replay(apply, s, done, 0).failure.None?
    ensures var t := Replay(apply, s, done, 0).after;
            && (forall u :: u in done ==> Idle(t, u))
            && PendingIds(t) <= PendingIds(s)
            && (forall u :: u in PendingIds(s) && u !in PendingIds(t) ==> Idle(t, u))
  {
    ReplayEffect(apply, s, done, 0);
    var t := Replay(apply, s, done, 0).after;
    forall u | u in PendingIds(t) ensures u in PendingIds(s) {
      assert u in t.log && u in s.log && !t.log[u].applied;
    }
  }

  /**
   A recovery interrupted after any number of commits and started over ends
   where an undisturbed one ends, with the same verdict and the same total.
   */
  lemma RecoveryResumes<S, F>(apply: (S, Event<F>) -> Option<S>, s: Sys<S, F>, k: nat)
    requires k <= |Sorted(PendingIds(s))|
    requires Replay(apply, s, Sorted(PendingIds(s))[..k], 0).failure.None?
    ensures var cut := Replay(apply, s, Sorted(PendingIds(s))[..k], 0);
            var again := Recover(apply, cut.after);
            Recover(apply, s) == Recovery(again.after, cut.recovered + again.recovered, again.failure)
  {
    var ids := Sorted(PendingIds(s));
    var done, rest := ids[..k], ids[k..];
    assert ids == done + rest;
    var cut := Replay(apply, s, done, 0);
    var t := cut.after;
    CutIsClean(apply, s, done);
    ReplaySplits(apply, s, done, rest, 0);
    ReplayIgnores(apply, t, PendingIds(s), PendingIds(t), 0);
    ReplayIgnoresPrefix(apply, t, done, rest, 0);
    ReplayCounts(apply, t, rest, cut.recovered);
  }

  /** A second recovery finds nothing to do. */
  lemma RecoveryIsIdempotent<S, F>(apply: (S, Event<F>) -> Option<S>, s: Sys<S, F>)
    requires Recover(apply, s).failure.None?
    ensures Recover(apply, Recover(apply, s).after) == Recovery(Recover(apply, s).after, 0, None)
  {
    var t := Recover(apply, s).after;
    RecoveryDrains(apply, s);
    SortedIsExact(PendingIds(t));
    var ids := Sorted(PendingIds(t));
    forall u | u in ids ensures Idle(t, u) { assert u in PendingIds(t); }
    ReplayIgnoresPrefix(apply, t, ids, [], 0);
    assert ids + [] == ids;
  }
}
