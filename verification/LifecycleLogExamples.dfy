/** Concrete runs of the update log with the lifecycle handler. */
module LifecycleLogExamples {
  import opened Prelude
  import opened Batches
  import opened Lifecycle
  import opened LifecycleExamples
  import opened EventLog
  import opened LifecycleLog
  import Arithmetic

  function Fresh(life: Life): Tables {
    Tables(life, map[], 0, map[], map[], map[])
  }

  // ----- forgotten and delivered again ---------------------------------------------------------------

  const A_WEEK_LATER := 10 + UPDATE_RETENTION

  /** The Owner writes into the chat, out of dry-run. */
  function OwnerWrites(): Facts {
    Facts(Raw(1, ManualOwnerMessage, CHAT, 1, 10, 10, Allow, Arithmetic.AnswerKind.NonNumeric, []), ManualOwner, false)
  }

  /** The Owner's message is deleted. */
  function OwnerDeletes(): Facts {
    Facts(Raw(2, Deletion, CHAT, 0, 20, 20, Allow, Arithmetic.AnswerKind.NonNumeric, [1]), MessagesDeleted([1]), false)
  }

  /** The chat in this state, with destructive mode on and nothing queued, audited or challenged. */
  predicate Chat(d: Tables, state: ConversationState) {
    var r := d.life.records;
    && CHAT in r.conversations && r.conversations[CHAT].state == state && r.challenges == map[]
    && "a" in r.rows && "a" in r.visible && r.destructive == Some(true)
    && d.life.outbox == map[] && d.audits == map[] && d.traces == map[]
  }

  function Reply(deleted: bool): Message {
    Message(false, true, 10, deleted, true)
  }

  function Blank(): Tables {
    var r := Rows(New, map[], 1);
    Fresh(Life(r.(destructive := Some(true)), map[], map[]))
  }

  lemma WritingActivates(d: Tables)
    requires Chat(d, New)
    ensures Handle(d, OwnerWrites()).Some? && Chat(Handle(d, OwnerWrites()).value, Active)
    ensures Handle(d, OwnerWrites()).value.life.ledger
            == if (CHAT, 1) in d.life.ledger then d.life.ledger else d.life.ledger[(CHAT, 1) := Reply(false)]
  {
    assert CloseActive(d.life.records, CHAT).challenges == map[];
  }

  lemma DeletingDeactivates(d: Tables)
    requires Chat(d, Active) && d.life.ledger == map[(CHAT, 1) := Reply(false)]
    ensures Handle(d, OwnerDeletes()).Some? && Chat(Handle(d, OwnerDeletes()).value, New)
    ensures Handle(d, OwnerDeletes()).value.life.ledger == map[(CHAT, 1) := Reply(true)]
  {
    var marked := MarkDeleted(d.life, CHAT, [1]);
    assert marked.ledger == map[(CHAT, 1) := Reply(true)];
    assert !OwnerReplied(marked, CHAT);
  }

  lemma PassChangesNothing(d: Tables)
    requires Chat(d, New) && d.life.ledger == map[(CHAT, 1) := Reply(true)]
    ensures Chat(Prune(d, A_WEEK_LATER), New) && Prune(d, A_WEEK_LATER).life.ledger == d.life.ledger
    ensures !Names(Prune(d, A_WEEK_LATER), 1)
  {
  }

  function Written(): Event<Facts> {
    Posted(OwnerWrites())
  }

  function Deleted(): Event<Facts> {
    Posted(OwnerDeletes())
  }

  /** The Owner writes and deletes the message; a week later the first update is forgotten and delivered once more. */
  function Labels(): seq<Step<Tables, Facts, ()>> {
    Again(1, Written(), 2, Deleted(), A_WEEK_LATER)
  }

  lemma WrittenTwice(d: Tables) returns (states: seq<EventLog.Sys<Tables, Facts>>)
    requires Chat(d, New) && d.life.ledger == map[]
    ensures IsRun(Handler(), states, Labels()) && states[0] == EventLog.Sys(map[], d)
    ensures EffectsAt(Handler(), states, Labels(), 1, 1) && EffectsAt(Handler(), states, Labels(), 6, 1)
    ensures Chat(states[5].derived, New) && Chat(states[7].derived, Active)
    ensures states[7].derived.life.ledger == map[(CHAT, 1) := Reply(true)]
  {
    WritingActivates(d);
    var d1 := Handle(d, OwnerWrites()).value;
    DeletingDeactivates(d1);
    var d2 := Handle(d1, OwnerDeletes()).value;
    PassChangesNothing(d2);
    WritingActivates(Prune(d2, A_WEEK_LATER));
    states := ForgottenBetween(Handler(), d, 1, Written(), 2, Deleted(), A_WEEK_LATER);
  }

  /**
   One delivery of the Owner's message, repeated unchanged after the history pass
   has forgotten it, activates the conversation again, although no owner reply
   is left in it.
   */
  lemma PurgeReplays() returns (states: seq<EventLog.Sys<Tables, Facts>>)
    ensures IsRun(Handler(), states, Labels()) && Labels()[0] == Labels()[5] == Record(1, Written())
    ensures EffectsAt(Handler(), states, Labels(), 1, 1) && EffectsAt(Handler(), states, Labels(), 6, 1)
    ensures Prepare(states[0].derived.life.records, CONFIG, OwnerWrites().raw) == Ok(ManualOwner)
    ensures Prepare(states[5].derived.life.records, CONFIG, OwnerWrites().raw) == Ok(ManualOwner)
    ensures StateOf(states[7].derived.life.records, CHAT) == Active && !OwnerReplied(states[7].derived.life, CHAT)
  {
    states := WrittenTwice(Blank());
  }

  // ----- a decision that stops recovery -------------------------------------------------------------------

  /** A wrong answer to challenge 1. */
  function WrongAnswer(): Facts {
    Facts(LifecycleExamples.Reply(2, 10, false), Judged(1, 0, false), false)
  }

  function Answered(): Event<Facts> {
    Posted(WrongAnswer())
  }

  function Waiting(): Tables {
    Fresh(Start().life)
  }

  function Expire(d: Tables): Tables {
    d.(life := ExpireDue(d.life, 200))
  }

  /** The wrong answer is recorded, its application fails, and the challenge expires. */
  function Missed(): seq<Step<Tables, Facts, ()>> {
    Failing(2, Answered(), (d: Tables) => Expire(d))
  }

  lemma ExpiredAnswer()
    ensures Handle(Expire(Waiting()), WrongAnswer()).None?
    ensures CHAT.conn in Expire(Waiting()).life.records.rows
  {
    var life := ExpireDue(Start().life, 200);
    assert !life.records.challenges[1].open;
    var annotated := Annotate(life, WrongAnswer().raw, WrongAnswer().action);
    assert annotated.records == life.records;
  }

  lemma AnswerIsPrepared()
    ensures Prepare(Waiting().life.records, CONFIG, WrongAnswer().raw) == Ok(WrongAnswer().action)
  {
    StartIsSound();
    var r := Start().life.records;
    assert HasOpen(r, CHAT);
    assert ActiveChallenge(r, CHAT) == Some(1);
  }

  /** An update that can no longer be applied once the challenges have expired. */
  lemma MissedRun(d: Tables, f: Facts, n: nat) returns (states: seq<EventLog.Sys<Tables, Facts>>)
    requires Handle(Expire(d), f).None?
    ensures IsRun(Handler(), states, Failing(2, Posted(f), (d: Tables) => Expire(d))) && |states| == 4
    ensures states[0].derived == d && states[3].derived == Expire(d)
    ensures Recoveries(Handler().apply, states[3], n) == states[3]
    ensures Recover(Handler().apply, Recoveries(Handler().apply, states[3], n))
            == Recovery(states[3], 0, Some(Application))
  {
    states := FailedRun(Handler(), d, 2, Posted(f), (d: Tables) => Expire(d));
    RecoveryStopsForGood(Handler().apply, states[3], 2, n);
  }

  /** A prepared decision, a failed application, an expiry pass: from there on every start-up recovery stops at it. */
  lemma StrandedDecisionStopsRecovery(n: nat) returns (states: seq<EventLog.Sys<Tables, Facts>>)
    ensures IsRun(Handler(), states, Missed()) && |states| == 4
    ensures Prepare(states[0].derived.life.records, CONFIG, WrongAnswer().raw) == Ok(WrongAnswer().action)
    ensures Recoveries(Handler().apply, states[3], n) == states[3]
    ensures Recover(Handler().apply, Recoveries(Handler().apply, states[3], n))
            == Recovery(states[3], 0, Some(Application))
    ensures CHAT.conn in states[3].derived.life.records.rows
  {
    AnswerIsPrepared();
    ExpiredAnswer();
    states := MissedRun(Waiting(), WrongAnswer(), n);
  }
}
