/** What recording, applying, forgetting and recovering do to the update log, row by row. */
module EventLaws {
  import opened Prelude
  import opened Batches
  import opened EventLog

  // ----- single transactions ------------------------------------------------------------------

  /** The first delivery is stored unapplied, and a connection trigger closes its gate with it. */
  lemma RecordsExactly<S, F, A>(g: Engine<S, F, A>, s: Sys<S, F>, u: int, e: Event<F>)
    ensures var t := Next(g, s, Record(u, e));
            if u in s.log then t == s
            else && t.log == s.log[u := Entry(e, false)]
                 && t.derived == if e.connectionChanged && e.ignored then g.gate(s.derived, e) else s.derived
    ensures ReceiptFor(s, u) == if u !in s.log then Recorded
                                else if s.log[u].applied then DuplicateApplied else DuplicateRecorded
  {
  }

  /** An unapplied update whose effect succeeds has it, once; nothing else changes anything. */
  lemma AppliesExactly<S, F, A>(g: Engine<S, F, A>, s: Sys<S, F>, u: int)
    ensures var t := Next(g, s, Apply(u));
            if u in s.log && !s.log[u].applied && g.apply(s.derived, s.log[u].event).Some?
            then && t.log == s.log[u := Entry(s.log[u].event, true)]
                 && Some(t.derived) == g.apply(s.derived, s.log[u].event)
            else t == s
  {
  }

  lemma ReconcilesExactly<S, F, A>(g: Engine<S, F, A>, s: Sys<S, F>, u: int, answer: A)
    ensures var t := Next(g, s, Reconcile(u, answer));
            if u in s.log && !s.log[u].applied && g.reconcile(s.derived, s.log[u].event, answer).Some?
            then && t.log == s.log[u := Entry(s.log[u].event, true)]
                 && Some(t.derived) == g.reconcile(s.derived, s.log[u].event, answer)
            else t == s
  {
  }

  /** A command is stored as applied together with its effect, and only then. */
  lemma CommandsExactly<S, F, A>(g: Engine<S, F, A>, s: Sys<S, F>, u: int, e: Event<F>)
    ensures var t := Next(g, s, Command(u, e));
            if u !in s.log && g.command(s.derived, e).Some?
            then t.log == s.log[u := Entry(e, true)] && Some(t.derived) == g.command(s.derived, e)
            else t == s
  {
  }

  /** A delivered update takes effect at once if it can, and the log says so. */
  lemma DeliveryTakesEffect<S, F, A>(g: Engine<S, F, A>, s: Sys<S, F>, u: int, e: Event<F>)
    requires u !in s.log && !(e.connectionChanged && e.ignored) && g.apply(s.derived, e).Some?
    ensures var t := Next(g, Next(g, s, Record(u, e)), Apply(u));
            t.log == s.log[u := Entry(e, true)] && Some(t.derived) == g.apply(s.derived, e)
  {
  }

  /** A pass deletes exactly the updates that are a week old and named by nothing that outlives it. */
  lemma ForgetsExactly<S, F, A>(g: Engine<S, F, A>, s: Sys<S, F>, now: int, u: int)
    ensures var t := Next(g, s, Purge(now));
            && t.derived == g.prune(s.derived, now)
            && (u in t.log <==> u in s.log
                                && (now - 7 * 24 * 60 * 60 < s.log[u].event.at || g.names(t.derived, u)))
            && (u in t.log ==> t.log[u] == s.log[u])
  {
  }

  // ----- recovery -------------------------------------------------------------------------------

  /** The listed updates that recovery has to apply; connection triggers wait for their lookup. */
  function Due<S, F>(s: Sys<S, F>, ids: seq<int>): seq<int> {
    if ids == [] then []
    else (if ids[0] in s.log && s.log[ids[0]].event.connectionChanged && s.log[ids[0]].event.ignored then []
          else [ids[0]]) + Due(s, ids[1..])
  }

  predicate Listed<F>(log: map<int, Entry<F>>, ids: seq<int>) {
    forall i :: 0 <= i < |ids| ==> ids[i] in log
  }

  /** Effects one after the other, if all succeed. */
  function InTurn<S, F>(apply: (S, Event<F>) -> Option<S>, log: map<int, Entry<F>>, d: S, ids: seq<int>): Option<S>
    requires Listed(log, ids)
  {
    if ids == [] then Some(d)
    else
      var first := apply(d, log[ids[0]].event);
      if first.None? then None else InTurn(apply, log, first.value, ids[1..])
  }

  /** Exactly the listed updates have become applied. */
  ghost predicate MarkedExactly<F>(before: map<int, Entry<F>>, after: map<int, Entry<F>>, ids: seq<int>) {
    && after.Keys == before.Keys
    && forall u :: u in before ==> after[u] == if u in ids then Entry(before[u].event, true) else before[u]
  }

  predicate Unapplied<S, F>(s: Sys<S, F>, ids: seq<int>) {
    && (forall u :: u in ids ==> u in s.log && !s.log[u].applied)
    && forall i, j :: 0 <= i < j < |ids| ==> ids[i] != ids[j]
  }

  lemma {:induction false} DueMembers<S, F>(s: Sys<S, F>, ids: seq<int>)
    ensures forall u :: u in Due(s, ids) <==> u in ids && !(u in s.log && IsTrigger(s.log[u].event))
  {
    if ids != [] { DueMembers(s, ids[1..]); }
  }

  lemma {:induction false} DueListed<S, F>(s: Sys<S, F>, ids: seq<int>)
    requires forall u :: u in ids ==> u in s.log
    ensures Listed(s.log, Due(s, ids))
  {
    if ids != [] {
      DueListed(s, ids[1..]);
      var rest := Due(s, ids[1..]);
      if HoldsTrigger(s, ids[0]) {
        assert Due(s, ids) == rest;
      } else {
        assert Due(s, ids) == [ids[0]] + rest;
      }
    }
  }

  lemma {:induction false} DueSame<S, F>(s: Sys<S, F>, t: Sys<S, F>, ids: seq<int>)
    requires t.log.Keys == s.log.Keys && forall u :: u in s.log ==> t.log[u].event == s.log[u].event
    ensures Due(t, ids) == Due(s, ids)
  {
    if ids != [] { DueSame(s, t, ids[1..]); }
  }

  lemma {:induction false} InTurnSame<S, F>(
    apply: (S, Event<F>) -> Option<S>, a: map<int, Entry<F>>, b: map<int, Entry<F>>, d: S, ids: seq<int>)
    requires Listed(a, ids) && Listed(b, ids)
    requires forall i :: 0 <= i < |ids| ==> a[ids[i]].event == b[ids[i]].event
    ensures InTurn(apply, a, d, ids) == InTurn(apply, b, d, ids)
    decreases |ids|
  {
    if ids != [] {
      var first := apply(d, a[ids[0]].event);
      if first.Some? { InTurnSame(apply, a, b, first.value, ids[1..]); }
    }
  }

  /** How far a replay gets: the effects of a prefix in turn, up to the first that fails. */
  ghost predicate GetsTo<S, F>(
    apply: (S, Event<F>) -> Option<S>, s: Sys<S, F>, due: seq<int>, k: nat, r: Recovery<S, F>, count: nat)
    requires Listed(s.log, due)
  {
    && k <= |due| && r.recovered == count + k
    && InTurn(apply, s.log, s.derived, due[..k]) == Some(r.after.derived)
    && MarkedExactly(s.log, r.after.log, due[..k])
    && (k == |due| ==> r.failure.None?)
    && (k < |due| ==> r.failure == Some(Application) && apply(r.after.derived, s.log[due[k]].event).None?)
  }

  lemma {:induction false} ReplayGetsTo<S, F>(
    apply: (S, Event<F>) -> Option<S>, s: Sys<S, F>, ids: seq<int>, count: nat) returns (k: nat)
    requires Unapplied(s, ids)
    ensures Listed(s.log, Due(s, ids))
    ensures GetsTo(apply, s, Due(s, ids), k, Replay(apply, s, ids, count), count)
    decreases |ids|
  {
    DueMembers(s, ids);
    DueListed(s, ids);
    if ids == [] {
      k := 0;
    } else if HoldsTrigger(s, ids[0]) {
      k := ReplayGetsTo(apply, s, ids[1..], count);
      assert Due(s, ids) == Due(s, ids[1..]);
    } else {
      var effect := apply(s.derived, s.log[ids[0]].event);
      assert Due(s, ids) == [ids[0]] + Due(s, ids[1..]);
      if effect.None? {
        k := 0;
        assert Due(s, ids)[..0] == [];
      } else {
        var t := Sys(s.log[ids[0] := Entry(s.log[ids[0]].event, true)], effect.value);
        var rest := ReplayGetsTo(apply, t, ids[1..], count + 1);
        DueSame(s, t, ids[1..]);
        OneMore(apply, s, t, ids[0], Due(s, ids[1..]), rest, Replay(apply, t, ids[1..], count + 1), count);
        k := rest + 1;
      }
    }
  }

  lemma OneMore<S, F>(apply: (S, Event<F>) -> Option<S>, s: Sys<S, F>, t: Sys<S, F>, first: int, due: seq<int>, k: nat,
                      r: Recovery<S, F>, count: nat)
    requires first in s.log && !s.log[first].applied && apply(s.derived, s.log[first].event) == Some(t.derived)
    requires t.log == s.log[first := Entry(s.log[first].event, true)]
    requires Listed(s.log, due) && GetsTo(apply, t, due, k, r, count + 1)
    ensures GetsTo(apply, s, [first] + due, k + 1, r, count)
  {
    var all := [first] + due;
    assert all[..k + 1] == [first] + due[..k];
    assert all[..k + 1][1..] == due[..k];
    InTurnSame(apply, s.log, t.log, t.derived, due[..k]);
    if k < |due| { assert all[k + 1] == due[k]; }
  }

  /**
   Recovery carries out the recorded updates other than connection triggers, in
   ascending order, up to the first that fails: it reports how many, marks
   exactly those as applied and leaves derived state as they left it.
   */
  lemma RecoversExactly<S, F>(apply: (S, Event<F>) -> Option<S>, s: Sys<S, F>) returns (due: seq<int>, k: nat)
    ensures forall u :: u in due <==> u in s.log && !s.log[u].applied
                                      && !(s.log[u].event.connectionChanged && s.log[u].event.ignored)
    ensures forall i, j :: 0 <= i < j < |due| ==> due[i] < due[j]
    ensures Listed(s.log, due) && GetsTo(apply, s, due, k, Recover(apply, s), 0)
  {
    var ids := Sorted(PendingIds(s));
    SortedIsExact(PendingIds(s));
    due := Due(s, ids);
    DueMembers(s, ids);
    DueListed(s, ids);
    DueAscends(s, ids);
    k := ReplayGetsTo(apply, s, ids, 0);
  }

  lemma {:induction false} DueAbove<S, F>(s: Sys<S, F>, ids: seq<int>, low: int)
    requires forall i :: 0 <= i < |ids| ==> low < ids[i]
    ensures forall j :: 0 <= j < |Due(s, ids)| ==> low < Due(s, ids)[j]
  {
    if ids != [] {
      DueAbove(s, ids[1..], low);
      var rest := Due(s, ids[1..]);
      if HoldsTrigger(s, ids[0]) {
        assert Due(s, ids) == rest;
      } else {
        assert Due(s, ids) == [ids[0]] + rest;
      }
    }
  }

  lemma {:induction false} DueAscends<S, F>(s: Sys<S, F>, ids: seq<int>)
    requires forall i, j :: 0 <= i < j < |ids| ==> ids[i] < ids[j]
    ensures forall i, j :: 0 <= i < j < |Due(s, ids)| ==> Due(s, ids)[i] < Due(s, ids)[j]
  {
    if ids != [] {
      DueAscends(s, ids[1..]);
      DueAbove(s, ids[1..], ids[0]);
      var rest := Due(s, ids[1..]);
      if HoldsTrigger(s, ids[0]) {
        assert Due(s, ids) == rest;
      } else {
        assert Due(s, ids) == [ids[0]] + rest;
      }
    }
  }
}
