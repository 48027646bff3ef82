/** Concrete runs of the trust protocol that end badly. */
module TrustExamples {
  import opened Prelude
  import opened Ranking
  import opened Trust
  import opened TrustSystem
  import opened TrustInvariant
  import opened TrustRuns
  import opened TrustLaws

  function Last(states: seq<Sys>): Sys
    requires states != []
  {
    states[|states| - 1]
  }

  /** A run goes on by any step its last state allows. */
  lemma Extend(states: seq<Sys>, steps: seq<Step>, step: Step) returns (more: seq<Sys>, labels: seq<Step>)
    requires IsRun(states, steps) && CanStep(Last(states), step)
    ensures IsRun(more, labels) && Last(more) == Next(Last(states), step) && labels == steps + [step]
    ensures |states| < |more| && more[..|states|] == states
  {
    more, labels := states + [Next(Last(states), step)], steps + [step];
    forall i | 0 <= i < |labels| ensures CanStep(more[i], labels[i]) && more[i + 1] == Next(more[i], labels[i]) {
      if i < |steps| { assert labels[i] == steps[i] && more[i] == states[i] && more[i + 1] == states[i + 1]; }
    }
  }

  // ----- a purge strands the trusted connection -----------------------------------------------------

  const ROW := Trusted(7, Rights(false, false, false, false), true, None, 1, false)
  const ANSWER := Authoritative("a", 7, None, Rights(true, true, true, true), true, 5)
  const OWNER := Claimed(7, 7, LegacyFallback, None, 1)

  /** A legacy installation with one connection. */
  function Legacy(): Sys {
    Sys(Store(OWNER, map["a" := ROW], map[], Guard(None, 0), Gate(Pending, 1)), map[], Idle, Some("a"), OWNER)
  }

  lemma LegacyStarts()
    ensures IsRun([Legacy()], [])
  {
    SingletonRow(Legacy().store.trusted, "a", ROW);
    assert InitializeOwner(Legacy().store.trusted, 1) == Some(OWNER);
  }

  lemma LegacyConfirms() returns (s: Sys)
    ensures CanStep(Legacy(), BeginStartup) && CanStep(Next(Legacy(), BeginStartup), FinishStartup(Found(ANSWER), 10))
    ensures s == Next(Next(Legacy(), BeginStartup), FinishStartup(Found(ANSWER), 10))
    ensures s.store.trusted == map["a" := Trusted(7, ANSWER.rights, true, Some(5), 2, true)]
    ensures s.work.Idle? && s.startup.None? && s.store.gate == Gate(Pending, 1) && s.log == map[]
  {
    SingletonRow(Legacy().store.trusted, "a", ROW);
    s := Next(Next(Legacy(), BeginStartup), FinishStartup(Found(ANSWER), 10));
  }

  lemma PublishedThenGated(s: Sys)
    requires s.store.trusted == map["a" := Trusted(7, ANSWER.rights, true, Some(5), 2, true)]
    requires s.work.Idle? && s.startup.None? && s.store.gate == Gate(Pending, 1) && s.log == map[]
    ensures var t := Next(Next(s, PublishReady), Record(1, "a", 10));
            && t.work.Idle? && t.store.gate.state == Ready && t.log == map[1 := Trigger("a", false, 10)]
            && "a" in t.store.trusted && !t.store.trusted["a"].confirmed
  {
    SingletonRow(s.store.trusted, "a", Trusted(7, ANSWER.rights, true, Some(5), 2, true));
  }

  /** A run whose history purge strands the trusted connection. */
  lemma PurgeCanStrand() returns (states: seq<Sys>, steps: seq<Step>)
    ensures IsRun(states, steps) && !Resolvable(Last(states))
  {
    LegacyStarts();
    var confirmed := LegacyConfirms();
    states, steps := Extend([Legacy()], [], BeginStartup);
    states, steps := Extend(states, steps, FinishStartup(Found(ANSWER), 10));
    PublishedThenGated(confirmed);
    states, steps := Extend(states, steps, PublishReady);
    states, steps := Extend(states, steps, Record(1, "a", 10));
    states, steps := Extend(states, steps, Purge(10 + TRIGGER_RETENTION, {}));
    assert Last(states).log == map[];
  }

  // ----- an answer that is set aside ------------------------------------------------------------------

  /** The same connection of another date, switched off and without any right. */
  const REFUSAL := Authoritative("a", 7, None, Rights(false, false, false, false), false, 6)

  /** Open, with the connection as answered, and two triggers of it recorded. */
  predicate TwiceTriggered(s: Sys, applied: bool) {
    && s.work.Idle? && s.store.gate.state == Ready && s.store.owner == OWNER && s.store.candidates == map[]
    && s.store.trusted.Keys == {"a"} && s.store.trusted["a"].owner == 7
    && s.store.trusted["a"].rights == ANSWER.rights && s.store.trusted["a"].enabled
    && s.store.trusted["a"].established == Some(5) && s.store.trusted["a"].confirmed == applied
    && s.log == map[1 := Trigger("a", applied, 10), 2 := Trigger("a", false, 10)]
  }

  lemma PublishedThenTwice(s: Sys)
    requires s.store.trusted == map["a" := Trusted(7, ANSWER.rights, true, Some(5), 2, true)]
    requires s.work.Idle? && s.startup.None? && s.store.gate == Gate(Pending, 1) && s.log == map[]
    requires s.store.owner == OWNER && s.store.candidates == map[]
    ensures TwiceTriggered(Next(Next(Next(s, PublishReady), Record(1, "a", 10)), Record(2, "a", 10)), false)
  {
    SingletonRow(s.store.trusted, "a", Trusted(7, ANSWER.rights, true, Some(5), 2, true));
  }

  lemma FirstTriggerConfirms(s: Sys)
    requires Inv(s) && TwiceTriggered(s, false)
    ensures CanStep(s, BeginTrigger(1)) && CanStep(Next(s, BeginTrigger(1)), FinishTrigger(Found(ANSWER), 11))
    ensures TwiceTriggered(Next(Next(s, BeginTrigger(1)), FinishTrigger(Found(ANSWER), 11)), true)
  {
    UndisturbedLookupConfirms(s, 1, ANSWER, 11);
  }

  lemma SecondTriggerIsSetAside(s: Sys)
    requires Inv(s) && TwiceTriggered(s, true)
    ensures CanStep(s, BeginTrigger(2)) && CanStep(Next(s, BeginTrigger(2)), FinishTrigger(Found(REFUSAL), 12))
    ensures TwiceTriggered(Next(Next(s, BeginTrigger(2)), FinishTrigger(Found(REFUSAL), 12)), true)
  {
    var looking := Next(s, BeginTrigger(2));
    StepInv(s, BeginTrigger(2));
    TriggerSettlesExactly(looking, REFUSAL, 12);
  }

  lemma TwiceRun() returns (states: seq<Sys>, steps: seq<Step>)
    ensures IsRun(states, steps) && TwiceTriggered(Last(states), false)
  {
    LegacyStarts();
    var confirmed := LegacyConfirms();
    states, steps := Extend([Legacy()], [], BeginStartup);
    states, steps := Extend(states, steps, FinishStartup(Found(ANSWER), 10));
    LegacyOwner();
    PublishedThenTwice(confirmed);
    states, steps := Extend(states, steps, PublishReady);
    states, steps := Extend(states, steps, Record(1, "a", 10));
    states, steps := Extend(states, steps, Record(2, "a", 10));
  }

  lemma ConfirmedRun() returns (states: seq<Sys>, steps: seq<Step>)
    ensures IsRun(states, steps) && TwiceTriggered(Last(states), true)
  {
    states, steps := TwiceRun();
    RunInv(states, steps, |states| - 1);
    FirstTriggerConfirms(Last(states));
    states, steps := Extend(states, steps, BeginTrigger(1));
    states, steps := Extend(states, steps, FinishTrigger(Found(ANSWER), 11));
  }

  lemma RightsAtLast(s: Sys)
    requires TwiceTriggered(s, true)
    ensures EnsureRight(s.store, "a", DeleteAll)
  {
  }

  /**
   A run whose last answer about the trusted connection grants nothing and is set
   aside for a retry, because its date is another one: the rights of the answer
   before it stay in force.
   */
  lemma SetAsideKeepsRights() returns (states: seq<Sys>, steps: seq<Step>)
    ensures IsRun(states, steps) && steps != []
    ensures steps[|steps| - 1] == FinishTrigger(Found(REFUSAL), 12)
    ensures EnsureRight(Last(states).store, REFUSAL.id, DeleteAll) && !REFUSAL.enabled && !REFUSAL.rights.deleteAll
  {
    states, steps := ConfirmedRun();
    RunInv(states, steps, |states| - 1);
    SecondTriggerIsSetAside(Last(states));
    states, steps := Extend(states, steps, BeginTrigger(2));
    states, steps := Extend(states, steps, FinishTrigger(Found(REFUSAL), 12));
    RightsAtLast(Last(states));
  }

  lemma LegacyOwner()
    requires CanStep(Legacy(), BeginStartup)
    requires CanStep(Next(Legacy(), BeginStartup), FinishStartup(Found(ANSWER), 10))
    ensures var s := Next(Next(Legacy(), BeginStartup), FinishStartup(Found(ANSWER), 10));
            s.store.owner == OWNER && s.store.candidates == map[]
  {
    SingletonRow(Legacy().store.trusted, "a", ROW);
  }

  // ----- too many candidates, then a trusted connection --------------------------------------------

  const NOW := 10

  function Id(n: nat): ConnId {
    seq(n + 1, _ => 'x')
  }

  function Candidacy(n: nat): Authoritative {
    Authoritative(Id(n), 7, None, Rights(true, true, true, true), true, 5)
  }

  /** An unclaimed installation that has seen `n` connections of one user. */
  predicate Seen(s: Sys, n: nat) {
    && s.store.owner.Unclaimed? && s.handle.Unclaimed? && s.store.trusted == map[] && s.store.guard.overflow.None?
    && s.work.Idle? && s.startup.None? && |s.store.candidates| == n
    && (forall id :: id in s.store.candidates ==> |id| <= n && s.store.candidates[id].observed == NOW)
    && (forall u :: u in s.log ==> u < n)
  }

  function Empty(): Sys {
    Sys(Store(Unclaimed, map[], map[], Guard(None, 0), Gate(Pending, 1)), map[], Idle, None, Unclaimed)
  }

  lemma EmptyStarts()
    ensures IsRun([Empty()], []) && Seen(Empty(), 0)
  {
    assert InitializeOwner(map[], 1) == Some(Unclaimed);
  }

  /** The three steps by which a new connection becomes a candidate. */
  lemma OneMore(states: seq<Sys>, steps: seq<Step>, n: nat) returns (more: seq<Sys>, labels: seq<Step>)
    requires IsRun(states, steps) && Seen(Last(states), n)
    ensures IsRun(more, labels) && Last(more).store == Observed(Last(states).store, n)
    ensures Last(more).work.Idle? && Last(more).startup.None? && Last(more).handle.Unclaimed?
    ensures forall u :: u in Last(more).log ==> u < n + 1
  {
    more, labels := Extend(states, steps, Record(n, Id(n), NOW));
    more, labels := Extend(more, labels, BeginTrigger(n));
    TriggerObserves(Last(states), n);
    more, labels := Extend(more, labels, FinishTrigger(Found(Candidacy(n)), NOW));
  }

  ghost function Observed(s: Store, n: nat): Store {
    Prune(s.(candidates := s.candidates[Id(n) := ObservedCandidate(Candidacy(n), 0, NOW)]),
      NOW - CANDIDATE_RETENTION, CANDIDATE_LIMIT)
  }

  lemma TriggerObserves(s: Sys, n: nat)
    requires Seen(s, n)
    ensures var t := Next(Next(s, Record(n, Id(n), NOW)), BeginTrigger(n));
            && CanStep(t, FinishTrigger(Found(Candidacy(n)), NOW))
            && var u := Next(t, FinishTrigger(Found(Candidacy(n)), NOW));
               && u.store == Observed(s.store, n) && u.work.Idle? && u.startup.None? && u.handle == s.handle
               && forall v :: v in u.log ==> v < n + 1
  {
    assert Id(n) !in s.store.candidates;
  }

  lemma StillRoom(s: Store, n: nat)
    requires s.owner.Unclaimed? && |s.candidates| == n < CANDIDATE_LIMIT
    requires forall id :: id in s.candidates ==> |id| <= n && s.candidates[id].observed == NOW
    ensures var t := Observed(s, n);
            && t == s.(candidates := s.candidates[Id(n) := ObservedCandidate(Candidacy(n), 0, NOW)])
            && |t.candidates| == n + 1
  {
    var grown := s.candidates[Id(n) := ObservedCandidate(Candidacy(n), 0, NOW)];
    assert Id(n) !in s.candidates;
    assert Fresh(grown, NOW - CANDIDATE_RETENTION) == grown;
  }

  lemma NoRoom(s: Store)
    requires s.owner.Unclaimed? && |s.candidates| == CANDIDATE_LIMIT
    requires forall id :: id in s.candidates ==> |id| <= CANDIDATE_LIMIT && s.candidates[id].observed == NOW
    ensures var t := Observed(s, CANDIDATE_LIMIT);
            t.guard.overflow.Some? && t.owner == s.owner && t.trusted == s.trusted
  {
    var grown := s.candidates[Id(CANDIDATE_LIMIT) := ObservedCandidate(Candidacy(CANDIDATE_LIMIT), 0, NOW)];
    assert Id(CANDIDATE_LIMIT) !in s.candidates;
    assert Fresh(grown, NOW - CANDIDATE_RETENTION) == grown;
    assert |grown| == CANDIDATE_LIMIT + 1;
  }

  lemma {:induction false} Fill(n: nat) returns (states: seq<Sys>, steps: seq<Step>)
    requires n <= CANDIDATE_LIMIT
    ensures IsRun(states, steps) && Seen(Last(states), n)
  {
    if n == 0 {
      EmptyStarts();
      states, steps := [Empty()], [];
    } else {
      states, steps := Fill(n - 1);
      var s := Last(states).store;
      states, steps := OneMore(states, steps, n - 1);
      StillRoom(s, n - 1);
    }
  }

  /** An overflowed installation between two updates. */
  predicate Overflowed(s: Sys) {
    && s.store.guard.overflow.Some? && s.store.trusted == map[] && s.work.Idle? && s.startup.None?
    && forall u :: u in s.log ==> u < 1000
  }

  lemma FillUp() returns (states: seq<Sys>, steps: seq<Step>)
    ensures IsRun(states, steps) && Overflowed(Last(states)) && Last(states).store.owner.Unclaimed?
  {
    states, steps := Fill(CANDIDATE_LIMIT);
    var s := Last(states).store;
    states, steps := OneMore(states, steps, CANDIDATE_LIMIT);
    NoRoom(s);
  }

  const CLAIM := ClaimRequest(7, 7, 20)

  lemma ClaimedOverflow(s: Sys)
    requires Inv(s) && Overflowed(s) && s.store.owner.Unclaimed?
    ensures CanStep(s, BeginClaim(CLAIM, 30)) && CanStep(Next(s, BeginClaim(CLAIM, 30)), FinishClaim(OtherError, 30))
    ensures var t := Next(Next(s, BeginClaim(CLAIM, 30)), FinishClaim(OtherError, 30));
            && Overflowed(t) && t.store.owner.Claimed? && t.store.owner.user == 7 && t.store.candidates == map[]
  {
    var b := Next(s, BeginClaim(CLAIM, 30));
    CommitClaimSound(s.store, CLAIM, b.work.seen, OtherError, 30);
    PruneSound(s.store, 30 - CANDIDATE_RETENTION, CANDIDATE_LIMIT);
  }

  /** A connection newer than everything remembered. */
  function Newest(s: Store): Authoritative {
    Authoritative("z", 7, None, Rights(true, true, true, true), true,
                  1 + Max(Max(OwnerFloor(s.owner).GetOr(0), s.guard.overflow.GetOr(0)), 0))
  }

  lemma NewestIsTrusted(s: Sys)
    requires Overflowed(s) && s.store.owner.Claimed? && s.store.owner.user == 7 && s.store.candidates == map[]
    ensures var b := Next(Next(s, Record(1000, "z", 40)), BeginTrigger(1000));
            && CanStep(b, FinishTrigger(Found(Newest(s.store)), 40))
            && var t := Next(b, FinishTrigger(Found(Newest(s.store)), 40));
               t.store.guard == s.store.guard && "z" in t.store.trusted
  {
  }

  lemma ClaimRun() returns (states: seq<Sys>, steps: seq<Step>)
    ensures IsRun(states, steps) && Overflowed(Last(states)) && Last(states).store.owner.Claimed?
    ensures Last(states).store.owner.user == 7 && Last(states).store.candidates == map[]
  {
    states, steps := FillUp();
    RunInv(states, steps, |steps|);
    ClaimedOverflow(Last(states));
    states, steps := Extend(states, steps, BeginClaim(CLAIM, 30));
    states, steps := Extend(states, steps, FinishClaim(OtherError, 30));
  }

  lemma TrustRun() returns (states: seq<Sys>, steps: seq<Step>)
    ensures IsRun(states, steps) && Last(states).store.guard.overflow.Some? && "z" in Last(states).store.trusted
  {
    states, steps := ClaimRun();
    var s := Last(states);
    NewestIsTrusted(s);
    states, steps := Extend(states, steps, Record(1000, "z", 40));
    states, steps := Extend(states, steps, BeginTrigger(1000));
    states, steps := Extend(states, steps, FinishTrigger(Found(Newest(s.store)), 40));
  }

  /** A run that overflows, is claimed and trusts a connection, which is then never reported ready. */
  lemma OverflowThenTrusted() returns (states: seq<Sys>, steps: seq<Step>)
    ensures IsRun(states, steps) && Last(states).store.guard.overflow.Some? && "z" in Last(states).store.trusted
    ensures forall now :: ClassifyReadiness(Last(states).store, now).None?
  {
    states, steps := TrustRun();
    forall now ensures ClassifyReadiness(Last(states).store, now).None? {
      OverflowBlocksReadiness(states, steps, |steps|, |steps|, now);
    }
  }
}
