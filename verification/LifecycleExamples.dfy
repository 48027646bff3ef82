/** Concrete runs in which a recorded decision is applied too late. */
module LifecycleExamples {
  import opened Prelude
  import opened Lifecycle
  import opened LifecycleInvariant
  import opened LifecycleEffects
  import opened LifecycleSystem
  import opened LifecycleRuns
  import Arithmetic

  const CONFIG := Config(1, false)
  const CHAT := Key("a", 5)

  function Message(update: int, now: int, answer: Arithmetic.AnswerKind): Raw {
    Raw(update, Inbound, CHAT, update, now, now, Allow, answer, [])
  }

  function Asked(id: int, attempts: nat, open: bool): Challenge {
    Challenge(CHAT, 1, 120, attempts, None, DeliveryPending, open)
  }

  function Rows(state: ConversationState, challenges: map<int, Challenge>, next: int): Records {
    Records({"a"}, map["a" := Visible(true, true, true, true)], None,
            map[CHAT := Conversation(state, 0, None, None, 0, 0)], challenges, next)
  }

  /** One challenge is open and nothing is recorded. */
  function Start(): Sys {
    Sys(Life(Rows(VerifyPending, map[1 := Asked(1, 0, true)], 2), map[], map[]), map[], {})
  }

  lemma StartIsSound()
    ensures IsRun(CONFIG, [Start()], []) && Ready(Start(), 1, 0)
  {
    var r := Start().life.records;
    assert OpenFor(r, CHAT, 1);
    assert ConversationSound(r, CHAT, true);
  }

  /** Everything is permitted and challenge `id` is the open one. */
  predicate Ready(s: Sys, id: int, attempts: nat) {
    var r := s.life.records;
    && OneOpen(r) && OpenFor(r, CHAT, id) && StateOf(r, CHAT) == VerifyPending && CHAT in r.conversations
    && r.challenges[id].attempts == attempts && r.challenges[id].keyVersion == 1 && 100 <= r.challenges[id].expiresAt
    && r.destructive.None? && "a" in r.rows && "a" in r.visible && r.visible["a"] == Visible(true, true, true, true)
  }

  function Last(states: seq<Sys>): Sys
    requires states != []
  {
    states[|states| - 1]
  }

  /** A run goes on by any step its last state allows. */
  lemma Extend(states: seq<Sys>, steps: seq<Step>, step: Step)
    requires IsRun(CONFIG, states, steps) && CanStep(Last(states), step)
    ensures IsRun(CONFIG, states + [Next(Last(states), CONFIG, step)], steps + [step])
  {
    var more, labels := states + [Next(Last(states), CONFIG, step)], steps + [step];
    forall i | 0 <= i < |labels|
      ensures CanStep(more[i], labels[i]) && more[i + 1] == Next(more[i], CONFIG, labels[i]) {
      if i < |steps| { assert labels[i] == steps[i] && more[i] == states[i] && more[i + 1] == states[i + 1]; }
    }
  }

  /** What an answer to an open challenge is taken for. */
  function Judged(id: int, attempts: nat, correct: bool): Prepared {
    InboundAction(Allow, if correct then Correct(id) else Incorrect(id, false, 2 - attempts, None), false)
  }

  function Reply(update: int, now: int, correct: bool): Raw {
    Message(update, now, if correct then Arithmetic.AnswerKind.Correct else Arithmetic.AnswerKind.Incorrect)
  }

  lemma ReplyIsRecorded(s: Sys, update: int, now: int, id: int, attempts: nat, correct: bool)
    requires Ready(s, id, attempts) && attempts + 1 < MAX_ATTEMPTS && !Known(s, update) && now < 100
    ensures var raw := Reply(update, now, correct);
            Record(s, CONFIG, raw) ==
            s.(pending := s.pending[update := Decision(raw, Judged(id, attempts, correct), false)])
  {
    var r := s.life.records;
    assert HasOpen(r, CHAT);
    assert ActiveChallenge(r, CHAT) == Some(id);
  }

  // ----- decisions that can no longer be applied ----------------------------------------------------

  /** A reply is recorded, but its application fails. */
  lemma Delayed(correct: bool) returns (states: seq<Sys>, steps: seq<Step>)
    ensures IsRun(CONFIG, states, steps) && InOrder(states, steps)
    ensures Last(states) == Start().(pending := map[2 := Decision(Reply(2, 10, correct), Judged(1, 0, correct), false)])
    ensures Ready(Last(states), 1, 0)
  {
    StartIsSound();
    states, steps := [Start()], [];
    ReplyIsRecorded(Start(), 2, 10, 1, 0, correct);
    var s := Next(Start(), CONFIG, RecordEvent(Reply(2, 10, correct)));
    Extend(states, steps, RecordEvent(Reply(2, 10, correct)));
    states, steps := states + [s], steps + [RecordEvent(Reply(2, 10, correct))];
    Extend(states, steps, FailEvent(2));
    states, steps := states + [s], steps + [FailEvent(2)];
  }

  /** Expiry before the application is repeated: the decision can never be applied again. */
  lemma ExpiryStrandsDecision() returns (states: seq<Sys>, steps: seq<Step>)
    ensures IsRun(CONFIG, states, steps)
    ensures var s := Last(states);
            2 in s.pending && CHAT.conn in s.life.records.rows && AfterApplying(s, 2).None?
  {
    states, steps := Delayed(false);
    var s := Next(Last(states), CONFIG, ExpirePass(200));
    assert s.life.records.challenges[1] == Closed(Asked(1, 0, true));
    Extend(states, steps, ExpirePass(200));
    states, steps := states + [s], steps + [ExpirePass(200)];
    DecisionsApplyExactly(CONFIG, states, steps, |steps|, 2);
  }

  /** The connection row goes: the foreign key refuses the decision, although nothing happened out of order. */
  lemma RemovalStrandsDecision() returns (states: seq<Sys>, steps: seq<Step>)
    ensures IsRun(CONFIG, states, steps) && InOrder(states, steps)
    ensures 2 in Last(states).pending && AfterApplying(Last(states), 2).None?
  {
    var before, labels := Delayed(false);
    var s := Next(Last(before), CONFIG, RemoveConnection("a"));
    Extend(before, labels, RemoveConnection("a"));
    states, steps := before + [s], labels + [RemoveConnection("a")];
    forall i | 0 <= i < |steps| && states[i].pending != map[] ensures steps[i].ApplyEvent? || Foreign(steps[i]) {
      if i < |labels| { assert states[i] == before[i] && steps[i] == labels[i]; }
    }
    DecisionsApplyExactly(CONFIG, states, steps, |steps|, 2);
  }

  // ----- decisions that do harm ---------------------------------------------------------------------

  /** Another wrong answer, recorded and applied at once. */
  lemma OneMoreFailure(before: seq<Sys>, labels: seq<Step>, u: int, now: int, attempts: nat)
    returns (states: seq<Sys>, steps: seq<Step>)
    requires IsRun(CONFIG, before, labels) && Ready(Last(before), 1, attempts) && attempts + 1 < MAX_ATTEMPTS
    requires !Known(Last(before), u) && now < 100
    ensures IsRun(CONFIG, states, steps) && Ready(Last(states), 1, attempts + 1)
    ensures Last(states).pending == Last(before).pending && Last(states).applied == Last(before).applied + {u}
  {
    var s := Last(before);
    var raw := Reply(u, now, false);
    ReplyIsRecorded(s, u, now, 1, attempts, false);
    var t := Next(s, CONFIG, RecordEvent(raw));
    Extend(before, labels, RecordEvent(raw));
    states, steps := before + [t], labels + [RecordEvent(raw)];
    FailureIsCounted(t, u, now, attempts);
    var v := Next(t, CONFIG, ApplyEvent(u));
    Extend(states, steps, ApplyEvent(u));
    states, steps := states + [v], steps + [ApplyEvent(u)];
    assert v.pending == s.pending;
  }

  lemma FailureIsCounted(s: Sys, u: int, now: int, attempts: nat)
    requires u in s.pending && s.pending[u].raw == Reply(u, now, false)
    requires s.pending[u].action.InboundAction? && s.pending[u].action.outcome.Incorrect?
    requires s.pending[u].action.outcome.challenge == 1 && !s.pending[u].action.outcome.exhausted
    requires Ready(s, 1, attempts) && attempts < MAX_ATTEMPTS
    ensures AfterApplying(s, u).Some? && Ready(ApplyRecorded(s, u), 1, attempts + 1)
  {
    var a := s.pending[u].action;
    var annotated := Annotate(s.life, s.pending[u].raw, a);
    assert annotated.records == s.life.records;
  }

  /** A wrong answer, delayed behind two others, uses up the third attempt and leaves the challenge open. */
  lemma LateFailureOverruns() returns (states: seq<Sys>, steps: seq<Step>)
    ensures IsRun(CONFIG, states, steps)
    ensures var r := Last(states).life.records;
            OpenFor(r, CHAT, 1) && r.challenges[1].attempts == MAX_ATTEMPTS && !Inv(r)
  {
    states, steps := Delayed(false);
    states, steps := OneMoreFailure(states, steps, 3, 20, 0);
    states, steps := OneMoreFailure(states, steps, 4, 30, 1);
    var s := Last(states);
    FailureIsCounted(s, 2, 10, 2);
    Extend(states, steps, ApplyEvent(2));
    states, steps := states + [Next(s, CONFIG, ApplyEvent(2))], steps + [ApplyEvent(2)];
    assert !ChallengeSound(Last(states).life.records, 1, true);
  }

  /** No challenge is open, and everything is permitted. */
  predicate Quiet(s: Sys) {
    var r := s.life.records;
    && r.challenges == map[1 := Closed(Asked(1, 0, true))] && r.nextChallenge == 2
    && StateOf(r, CHAT) == New && CHAT in r.conversations
    && r.destructive.None? && "a" in r.rows && "a" in r.visible && r.visible["a"] == Visible(true, true, true, true)
  }

  lemma ExpiryQuiets(s: Sys)
    requires s.life == Start().life
    ensures Quiet(s.(life := ExpireDue(s.life, 200)))
  {
    var r := s.life.records;
    assert Due(r.challenges[1], 200) && r.challenges[1].key == CHAT;
    assert DueFor(r, CHAT, 200);
  }

  function Hello(): Raw {
    Message(3, 210, Arithmetic.AnswerKind.NonNumeric)
  }

  function Ask(): Prepared {
    InboundAction(Allow, StartChallenge(1, 330), false)
  }

  lemma HelloIsRecorded(s: Sys)
    requires Quiet(s) && !Known(s, 3)
    ensures Record(s, CONFIG, Hello()) == s.(pending := s.pending[3 := Decision(Hello(), Ask(), false)])
  {
  }

  lemma HelloIsAnswered(s: Sys)
    requires Quiet(s) && 3 in s.pending && s.pending[3] == Decision(Hello(), Ask(), false)
    ensures AfterApplying(s, 3).Some? && Ready(ApplyRecorded(s, 3), 2, 0)
    ensures !OpenFor(ApplyRecorded(s, 3).life.records, CHAT, 1)
  {
    var annotated := Annotate(s.life, Hello(), Ask());
    assert annotated.records == s.life.records;
    assert !HasOpen(s.life.records, CHAT);
  }

  lemma Quieten(before: seq<Sys>, labels: seq<Step>) returns (states: seq<Sys>, steps: seq<Step>)
    requires IsRun(CONFIG, before, labels) && Last(before).life == Start().life
    ensures IsRun(CONFIG, states, steps) && Quiet(Last(states))
    ensures Last(states).pending == Last(before).pending && Last(states).applied == Last(before).applied
  {
    ExpiryQuiets(Last(before));
    Extend(before, labels, ExpirePass(200));
    states, steps := before + [Next(Last(before), CONFIG, ExpirePass(200))], labels + [ExpirePass(200)];
  }

  lemma Greet(before: seq<Sys>, labels: seq<Step>) returns (states: seq<Sys>, steps: seq<Step>)
    requires IsRun(CONFIG, before, labels) && Quiet(Last(before)) && !Known(Last(before), 3)
    ensures IsRun(CONFIG, states, steps) && Quiet(Last(states))
    ensures Last(states).pending == Last(before).pending[3 := Decision(Hello(), Ask(), false)]
  {
    HelloIsRecorded(Last(before));
    Extend(before, labels, RecordEvent(Hello()));
    states, steps := before + [Record(Last(before), CONFIG, Hello())], labels + [RecordEvent(Hello())];
  }

  lemma Answer(before: seq<Sys>, labels: seq<Step>) returns (states: seq<Sys>, steps: seq<Step>)
    requires IsRun(CONFIG, before, labels) && Quiet(Last(before))
    requires 3 in Last(before).pending && Last(before).pending[3] == Decision(Hello(), Ask(), false)
    ensures IsRun(CONFIG, states, steps) && Ready(Last(states), 2, 0)
    ensures !OpenFor(Last(states).life.records, CHAT, 1) && Last(states).pending == Last(before).pending - {3}
  {
    HelloIsAnswered(Last(before));
    Extend(before, labels, ApplyEvent(3));
    states, steps := before + [ApplyRecorded(Last(before), 3)], labels + [ApplyEvent(3)];
  }

  lemma SuccessOfTheOther(s: Sys)
    requires Ready(s, 2, 0) && !OpenFor(s.life.records, CHAT, 1)
    requires 2 in s.pending && s.pending[2] == Decision(Reply(2, 10, true), Judged(1, 0, true), false)
    ensures AfterApplying(s, 2).Some?
    ensures var r := ApplyRecorded(s, 2).life.records;
            && OpenFor(r, CHAT, 2) && CHAT in r.conversations && StateOf(r, CHAT) == VerifiedWaitingOwner
  {
    var annotated := Annotate(s.life, s.pending[2].raw, s.pending[2].action);
    assert annotated.records == s.life.records;
  }

  /** A correct answer, delayed behind expiry and a new challenge, passes and leaves that challenge open. */
  lemma LateSuccessLeavesOpen() returns (states: seq<Sys>, steps: seq<Step>)
    ensures IsRun(CONFIG, states, steps)
    ensures var r := Last(states).life.records;
            OpenFor(r, CHAT, 2) && StateOf(r, CHAT) == VerifiedWaitingOwner && !Inv(r)
  {
    states, steps := Delayed(true);
    states, steps := Quieten(states, steps);
    states, steps := Greet(states, steps);
    states, steps := Answer(states, steps);
    var s := Last(states);
    SuccessOfTheOther(s);
    Extend(states, steps, ApplyEvent(2));
    states, steps := states + [ApplyRecorded(s, 2)], steps + [ApplyEvent(2)];
    StaleOpen(Last(states).life.records, CHAT);
  }
}
