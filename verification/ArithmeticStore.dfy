/** Challenge generation from a random source, and the one-transaction upgrade of stored answer tags. */
module ArithmeticStore {
  import opened Prelude
  import opened Batches
  import opened ClaimCode
  import opened Arithmetic

  const MAX_RANDOM_CANDIDATES: nat := 100
  const FALLBACK_EXPRESSION := "7 + 5 - 3"
  const FALLBACK_ANSWER: Operand := 9
  const LIFETIME := 120
  const MAX_ATTEMPTS := 3
  const LEGACY_KEY_VERSION := 0
  const CURRENT_KEY_VERSION := 1

  datatype GeneratedChallenge = GeneratedChallenge(
    expression: string, answerTag: string, keyVersion: int, createdAt: int, expiresAt: int, maxAttempts: int)

  // ----- generation ----------------------------------------------------------------------

  const FALLBACK := Expression(7, Add, 5, Subtract, 3)

  lemma FallbackIsBounded()
    ensures Print(FALLBACK) == FALLBACK_EXPRESSION && BoundedAnswer(FALLBACK) == Some(FALLBACK_ANSWER)
  {
    assert PrintNat(7) == "7" && PrintNat(5) == "5" && PrintNat(3) == "3";
  }

  /** A bounded expression and its answer; any other draw is discarded. */
  function CandidateOf(e: Expression): Option<(string, Operand)> {
    var answer := BoundedAnswer(e);
    if answer.Some? then Some((Print(e), answer.value)) else None
  }

  /** The challenge that asks a bounded expression. */
  function ChallengeFor(mac: string -> seq<Byte>, keyVersion: int, e: Expression, now: int): GeneratedChallenge
    requires BoundedAnswer(e).Some?
  {
    GeneratedChallenge(Print(e), Tag(mac, PrintNat(BoundedAnswer(e).value)), keyVersion, now, now + LIFETIME,
      MAX_ATTEMPTS)
  }

  /** Whatever is asked can be re-parsed to the answer its tag was made for, and that answer passes. */
  lemma GeneratedIsAnswerable(mac: string -> seq<Byte>, nfkc: string -> string, keyVersion: int, e: Expression,
      now: int)
    requires BoundedAnswer(e).Some? && KeepsAscii(nfkc)
    ensures var c := ChallengeFor(mac, keyVersion, e, now);
            && AnswerFor(c.expression) == BoundedAnswer(e)
            && c.answerTag == Tag(mac, PrintNat(AnswerFor(c.expression).value))
            && Evaluate(mac, nfkc, PrintNat(BoundedAnswer(e).value), c.answerTag) == Correct
  {
    PrintThenParse(e);
    PrintedAnswerIsCorrect(mac, nfkc, BoundedAnswer(e).value);
  }

  class ArithmeticVerifier {
    /** The random source: the candidate it yields at each position. */
    const draw: nat -> Expression
    const mac: string -> seq<Byte>
    const keyVersion: int
    var position: nat

    constructor (draw: nat -> Expression, mac: string -> seq<Byte>, keyVersion: int)
      ensures this.draw == draw && this.mac == mac && this.keyVersion == keyVersion && position == 0
    {
      this.draw, this.mac, this.keyVersion, this.position := draw, mac, keyVersion, 0;
    }

    method RandomCandidate() returns (candidate: Option<(string, Operand)>)
      modifies this
      ensures position == old(position) + 1
      ensures candidate == CandidateOf(draw(old(position)))
    {
      var e := draw(position);
      position := position + 1;
      var answer := BoundedAnswer(e);
      if answer.None? {
        return None;
      }
      return Some((Print(e), answer.value));
    }

    /** Tries up to a hundred candidates and stops at the first bounded one. */
    method FindCandidate() returns (found: Option<(string, Operand)>)
      modifies this
      ensures old(position) < position <= old(position) + MAX_RANDOM_CANDIDATES
      ensures found == CandidateOf(draw(position - 1))
      ensures forall i :: old(position) <= i < position - 1 ==> BoundedAnswer(draw(i)).None?
      ensures found.None? ==> position == old(position) + MAX_RANDOM_CANDIDATES
    {
      var start := position;
      found := None;
      while position < start + MAX_RANDOM_CANDIDATES && found.None?
        invariant start <= position <= start + MAX_RANDOM_CANDIDATES
        invariant start < position ==> found == CandidateOf(draw(position - 1))
        invariant start == position ==> found.None?
        invariant forall i :: start <= i < position - 1 ==> BoundedAnswer(draw(i)).None?
        decreases start + MAX_RANDOM_CANDIDATES - position
      {
        found := RandomCandidate();
      }
    }

    /** The first bounded candidate of at most a hundred, or the fallback. */
    method Generate(now: int) returns (c: GeneratedChallenge)
      modifies this
      ensures old(position) < position <= old(position) + MAX_RANDOM_CANDIDATES
      ensures forall i :: old(position) <= i < position - 1 ==> BoundedAnswer(draw(i)).None?
      ensures var last := draw(position - 1);
              if BoundedAnswer(last).Some? then c == ChallengeFor(mac, keyVersion, last, now)
              else position == old(position) + MAX_RANDOM_CANDIDATES
                   && BoundedAnswer(FALLBACK).Some? && c == ChallengeFor(mac, keyVersion, FALLBACK, now)
    {
      var found := FindCandidate();
      FallbackIsBounded();
      var (expression, answer) := found.GetOr((FALLBACK_EXPRESSION, FALLBACK_ANSWER));
      return GeneratedChallenge(expression, Tag(mac, PrintNat(answer)), keyVersion, now, now + LIFETIME, MAX_ATTEMPTS);
    }
  }

  // ----- key upgrade ------------------------------------------------------------------------

  datatype Signed = Signed(expression: string, tag: string, version: int, open: bool)

  datatype UpgradeError =
    | WrongSignerVersion(signer: int)
    | UnknownSourceVersion(source: int)
    | InvalidExpression
    | ConcurrentModification

  function Stale(rows: map<int, Signed>): set<int> {
    set id | id in rows && rows[id].open && rows[id].version != CURRENT_KEY_VERSION
  }

  predicate Upgradable(row: Signed) {
    row.version == LEGACY_KEY_VERSION && AnswerFor(row.expression).Some?
  }

  function Resigned(mac: string -> seq<Byte>, row: Signed): Signed
    requires Upgradable(row)
  {
    row.(tag := Tag(mac, PrintNat(AnswerFor(row.expression).value)), version := CURRENT_KEY_VERSION)
  }

  function Problem(row: Signed): UpgradeError
    requires !Upgradable(row)
  {
    if row.version != LEGACY_KEY_VERSION then UnknownSourceVersion(row.version) else InvalidExpression
  }

  /** Row by row; the first problem ends the attempt. */
  function ResignEach(mac: string -> seq<Byte>, rows: map<int, Signed>, ids: seq<int>)
    : Result<map<int, Signed>, UpgradeError>
    decreases |ids|
  {
    if ids == [] then Ok(rows)
    else if ids[0] !in rows then Err(ConcurrentModification)
    else if !Upgradable(rows[ids[0]]) then Err(Problem(rows[ids[0]]))
    else ResignEach(mac, rows[ids[0] := Resigned(mac, rows[ids[0]])], ids[1..])
  }

  function Upgrade(mac: string -> seq<Byte>, rows: map<int, Signed>): Result<map<int, Signed>, UpgradeError> {
    ResignEach(mac, rows, Sorted(Stale(rows)))
  }

  predicate AllUpgradable(rows: map<int, Signed>, todo: set<int>)
    requires todo <= rows.Keys
  {
    forall id :: id in todo ==> Upgradable(rows[id])
  }

  function ResignedIn(mac: string -> seq<Byte>, rows: map<int, Signed>, todo: set<int>): map<int, Signed>
    requires todo <= rows.Keys && AllUpgradable(rows, todo)
  {
    map id | id in rows :: if id in todo then Resigned(mac, rows[id]) else rows[id]
  }

  lemma ResignOneMore(mac: string -> seq<Byte>, rows: map<int, Signed>, todo: set<int>, m: int)
    requires m in todo && todo <= rows.Keys && Upgradable(rows[m])
    ensures var next := rows[m := Resigned(mac, rows[m])];
            && (AllUpgradable(next, todo - {m}) <==> AllUpgradable(rows, todo))
            && (AllUpgradable(rows, todo) ==> ResignedIn(mac, next, todo - {m}) == ResignedIn(mac, rows, todo))
  {
    var next := rows[m := Resigned(mac, rows[m])];
    if AllUpgradable(next, todo - {m}) {
      forall id | id in todo ensures Upgradable(rows[id]) {
        if id != m { assert next[id] == rows[id]; }
      }
    }
  }

  lemma {:induction false} ResignEachIsExact(mac: string -> seq<Byte>, rows: map<int, Signed>, todo: set<int>)
    requires todo <= rows.Keys
    ensures var r := ResignEach(mac, rows, Sorted(todo));
            && (r.Ok? <==> AllUpgradable(rows, todo))
            && (r.Ok? ==> r.value == ResignedIn(mac, rows, todo))
    decreases |todo|
  {
    if todo != {} {
      var m := Minimum(todo);
      assert Sorted(todo)[1..] == Sorted(todo - {m});
      if Upgradable(rows[m]) {
        ResignOneMore(mac, rows, todo, m);
        ResignEachIsExact(mac, rows[m := Resigned(mac, rows[m])], todo - {m});
      }
    }
  }

  /**
   The upgrade succeeds exactly if every stale open challenge is a legacy one
   with a canonical expression; it then re-signs all of them and no other row.
   */
  lemma UpgradeIsExact(mac: string -> seq<Byte>, rows: map<int, Signed>)
    ensures var r := Upgrade(mac, rows);
            && (r.Ok? <==> forall id :: id in Stale(rows) ==> Upgradable(rows[id]))
            && (r.Ok? ==>
                  && r.value.Keys == rows.Keys
                  && (forall id :: id in rows && id !in Stale(rows) ==> r.value[id] == rows[id])
                  && (forall id :: id in Stale(rows) ==> r.value[id] == Resigned(mac, rows[id])))
  {
    ResignEachIsExact(mac, rows, Stale(rows));
  }

  /** A second upgrade finds nothing to do. */
  lemma UpgradeIsIdempotent(mac: string -> seq<Byte>, rows: map<int, Signed>)
    requires Upgrade(mac, rows).Ok?
    ensures var once := Upgrade(mac, rows).value;
            Stale(once) == {} && Upgrade(mac, once) == Ok(once)
  {
    UpgradeIsExact(mac, rows);
    var once := Upgrade(mac, rows).value;
    forall id | id in once ensures id !in Stale(once) {
      assert once[id] == if id in Stale(rows) then Resigned(mac, rows[id]) else rows[id];
    }
    assert Stale(once) == {};
  }

  /**
   Re-signing changes no verdict: with collision-free tags, any reply to a
   challenge that was signed under the old key is judged as it was before.
   */
  lemma UpgradeKeepsVerdicts(
    before: string -> seq<Byte>, mac: string -> seq<Byte>, nfkc: string -> string, rows: map<int, Signed>, id: int,
    raw: string)
    requires Injective(before) && Injective(mac)
    requires id in Stale(rows) && Upgrade(mac, rows).Ok? && AnswerFor(rows[id].expression).Some?
    requires rows[id].tag == Tag(before, PrintNat(AnswerFor(rows[id].expression).value))
    ensures id in Upgrade(mac, rows).value
    ensures Evaluate(mac, nfkc, raw, Upgrade(mac, rows).value[id].tag) == Evaluate(before, nfkc, raw, rows[id].tag)
  {
    UpgradeIsExact(mac, rows);
    var n := AnswerFor(rows[id].expression).value;
    EvaluateIsExact(before, nfkc, raw, n);
    EvaluateIsExact(mac, nfkc, raw, n);
  }

  /** The printed answer passes before and after the upgrade, whatever the hash. */
  lemma UpgradedAnswerIsCorrect(mac: string -> seq<Byte>, nfkc: string -> string, rows: map<int, Signed>, id: int)
    requires KeepsAscii(nfkc) && id in Stale(rows) && Upgrade(mac, rows).Ok?
    ensures id in Upgrade(mac, rows).value && AnswerFor(rows[id].expression).Some?
    ensures Evaluate(mac, nfkc, PrintNat(AnswerFor(rows[id].expression).value), Upgrade(mac, rows).value[id].tag)
            == Correct
  {
    UpgradeIsExact(mac, rows);
    PrintedAnswerIsCorrect(mac, nfkc, AnswerFor(rows[id].expression).value);
  }

  class ChallengeTable {
    var rows: map<int, Signed>

    constructor (rows: map<int, Signed>)
      ensures this.rows == rows
    {
      this.rows := rows;
    }

    /** All or nothing: the rows are replaced one by one and restored on the first problem. */
    method UpgradeActiveChallengeHmacs(mac: string -> seq<Byte>, signer: int) returns (r: Result<nat, UpgradeError>)
      modifies this
      ensures signer != CURRENT_KEY_VERSION ==> r == Err(WrongSignerVersion(signer)) && rows == old(rows)
      ensures signer == CURRENT_KEY_VERSION ==>
                match Upgrade(mac, old(rows))
                case Ok(upgraded) => r == Ok(|Stale(old(rows))|) && rows == upgraded
                case Err(error) => r == Err(error) && rows == old(rows)
    {
      if signer != CURRENT_KEY_VERSION {
        return Err(WrongSignerVersion(signer));
      }
      var saved := rows;
      var stale := set id | id in rows && rows[id].open && rows[id].version != CURRENT_KEY_VERSION;
      assert stale == Stale(rows);
      SortedIsExact(stale);
      var ids := Sorted(stale);
      for i := 0 to |ids|
        invariant rows.Keys == saved.Keys
        invariant ResignEach(mac, rows, ids[i..]) == Upgrade(mac, saved)
      {
        assert ids[i] in ids;
        var row := rows[ids[i]];
        if row.version != LEGACY_KEY_VERSION {
          rows := saved;
          return Err(UnknownSourceVersion(row.version));
        }
        var answer := AnswerFor(row.expression);
        if answer.None? {
          rows := saved;
          return Err(InvalidExpression);
        }
        rows := rows[ids[i] := row.(tag := Tag(mac, PrintNat(answer.value)), version := CURRENT_KEY_VERSION)];
        assert ids[i..][1..] == ids[i + 1..];
      }
      return Ok(|stale|);
    }
  }
}
