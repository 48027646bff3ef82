/**
 Arithmetic challenges: printing and re-parsing expressions, bounded evaluation,
 answer normalization and keyed answer tags.  The keyed hash and Unicode's NFKC
 are parameters.
 */
module Arithmetic {
  import opened Prelude
  import opened Text
  import opened ClaimCode

  type Operand = x: int | 0 <= x <= 99

  datatype Operator = Add | Subtract | Multiply

  datatype Expression = Expression(first: Operand, op1: Operator, second: Operand, op2: Operator, third: Operand)

  // ----- evaluation --------------------------------------------------------------------

  function Perform(op: Operator, left: int, right: int): int {
    match op
    case Add => left + right
    case Subtract => left - right
    case Multiply => left * right
  }

  function Precedence(op: Operator): int {
    if op == Multiply then 2 else 1
  }

  /** Two steps, the tighter operator first; both results must be printable operands. */
  function BoundedAnswer(e: Expression): Option<Operand> {
    var (intermediate, answer) :=
      if Precedence(e.op2) > Precedence(e.op1) then
        var product := Perform(e.op2, e.second, e.third);
        (product, Perform(e.op1, e.first, product))
      else
        var left := Perform(e.op1, e.first, e.second);
        (left, Perform(e.op2, left, e.third));
    if 0 <= intermediate <= 99 && 0 <= answer <= 99 then Some(answer) else None
  }

  datatype Token = Number(value: int) | Symbol(op: Operator)

  function Tokens(e: Expression): seq<Token> {
    [Number(e.first), Symbol(e.op1), Number(e.second), Symbol(e.op2), Number(e.third)]
  }

  /** term ::= number { "×" number }, evaluated from the left; returns its value and the unread rest. */
  function Term(value: int, rest: seq<Token>): (r: (int, seq<Token>))
    ensures |r.1| <= |rest|
    decreases |rest|
  {
    if |rest| >= 2 && rest[0] == Symbol(Multiply) && rest[1].Number? then Term(value * rest[1].value, rest[2..])
    else (value, rest)
  }

  /** sum ::= term { ("+" | "-") term }, evaluated from the left. */
  function Sum(value: int, rest: seq<Token>): (int, seq<Token>)
    decreases |rest|
  {
    if |rest| >= 2 && rest[0].Symbol? && rest[0].op != Multiply && rest[1].Number? then
      var term := Term(rest[1].value, rest[2..]);
      Sum(if rest[0].op == Add then value + term.0 else value - term.0, term.1)
    else (value, rest)
  }

  /** The value of a token list under the usual grammar, if all of it is read. */
  function StandardValue(tokens: seq<Token>): Option<int> {
    if tokens == [] || !tokens[0].Number? then None
    else
      var term := Term(tokens[0].value, tokens[1..]);
      var sum := Sum(term.0, term.1);
      if sum.1 == [] then Some(sum.0) else None
  }

  lemma TermStep(value: int, op: Operator, n: int, rest: seq<Token>)
    ensures var tokens := [Symbol(op), Number(n)] + rest;
            Term(value, tokens) == if op == Multiply then Term(value * n, rest) else (value, tokens)
    ensures Term(value, []) == (value, [])
  {
    assert ([Symbol(op), Number(n)] + rest)[2..] == rest;
  }

  lemma SumStep(value: int, op: Operator, n: int, rest: seq<Token>)
    requires op != Multiply
    ensures var term := Term(n, rest);
            Sum(value, [Symbol(op), Number(n)] + rest) == Sum(Perform(op, value, term.0), term.1)
    ensures Sum(value, []) == (value, [])
  {
    assert ([Symbol(op), Number(n)] + rest)[2..] == rest;
  }

  /** The answer of an expression is its value under standard precedence. */
  lemma AnswerIsStandard(e: Expression)
    requires BoundedAnswer(e).Some?
    ensures StandardValue(Tokens(e)) == Some(BoundedAnswer(e).value)
  {
    var tail := [Symbol(e.op2), Number(e.third)];
    assert tail == tail + [];
    assert Tokens(e)[1..] == [Symbol(e.op1), Number(e.second)] + tail;
    TermStep(e.first, e.op1, e.second, tail);
    var left := if e.op1 == Multiply then e.first * e.second else e.second;
    TermStep(left, e.op2, e.third, []);
    if e.op1 != Multiply { SumStep(e.first, e.op1, e.second, tail); }
    if e.op2 != Multiply { SumStep(Perform(e.op1, e.first, e.second), e.op2, e.third, []); }
  }

  // ----- printing and parsing --------------------------------------------------------------

  function Digit(n: int): char
    requires 0 <= n < 10
  {
    '0' + n as char
  }

  predicate IsDigit(c: char) {
    '0' <= c <= '9'
  }

  predicate AllDigits(s: string) {
    forall i :: 0 <= i < |s| ==> IsDigit(s[i])
  }

  function PrintNat(n: nat): string {
    if n < 10 then [Digit(n)] else PrintNat(n / 10) + [Digit(n % 10)]
  }

  function DigitsValue(s: string): nat
    requires AllDigits(s)
  {
    if s == "" then 0 else 10 * DigitsValue(s[..|s| - 1]) + (s[|s| - 1] - '0') as nat
  }

  function SymbolOf(op: Operator): char {
    match op
    case Add => '+'
    case Subtract => '-'
    case Multiply => '\U{D7}'
  }

  function Print(e: Expression): string {
    PrintNat(e.first) + [' ', SymbolOf(e.op1), ' '] + PrintNat(e.second) + [' ', SymbolOf(e.op2), ' ']
      + PrintNat(e.third)
  }

  /** A signed decimal that fits 32 bits; leading zeros are allowed. */
  function ParseI32(s: string): Option<int> {
    if s == "" then None
    else
      var signed := s[0] == '+' || s[0] == '-';
      var digits := if signed then s[1..] else s;
      if digits == "" || !AllDigits(digits) then None
      else
        var magnitude: int := DigitsValue(digits);
        var value := if s[0] == '-' then -magnitude else magnitude;
        if -0x8000_0000 <= value <= 0x7fff_ffff then Some(value) else None
  }

  function ParseOperand(s: string): Option<Operand> {
    var n := ParseI32(s);
    if n.Some? && 0 <= n.value <= 99 then Some(n.value) else None
  }

  function ParseOperator(s: string): Option<Operator> {
    if s == "+" then Some(Add)
    else if s == "-" then Some(Subtract)
    else if s == "\U{D7}" then Some(Multiply)
    else None
  }

  function Word(s: string): (word: string)
    ensures |word| <= |s|
  {
    if s == "" || IsWhitespace(s[0]) then "" else [s[0]] + Word(s[1..])
  }

  function SplitWhitespace(s: string): seq<string>
    decreases |s|
  {
    if s == "" then []
    else if IsWhitespace(s[0]) then SplitWhitespace(s[1..])
    else [Word(s)] + SplitWhitespace(s[|Word(s)|..])
  }

  function ParseExpression(text: string): Option<Expression> {
    var parts := SplitWhitespace(text);
    if |parts| != 5 then None
    else
      var first, op1, second, op2, third :=
        ParseOperand(parts[0]), ParseOperator(parts[1]), ParseOperand(parts[2]), ParseOperator(parts[3]),
          ParseOperand(parts[4]);
      if first.None? || op1.None? || second.None? || op2.None? || third.None? then None
      else Some(Expression(first.value, op1.value, second.value, op2.value, third.value))
  }

  /** The answer of a persisted expression, which must be in canonical form. */
  function AnswerFor(text: string): Option<Operand> {
    var e := ParseExpression(text);
    if e.None? || Print(e.value) != text then None else BoundedAnswer(e.value)
  }

  // ----- numbers ------------------------------------------------------------------------------

  lemma {:induction false} PrintedIsDigits(n: nat)
    ensures PrintNat(n) != "" && AllDigits(PrintNat(n)) && DigitsValue(PrintNat(n)) == n
  {
    if n >= 10 {
      PrintedIsDigits(n / 10);
      var s := PrintNat(n);
      assert s[..|s| - 1] == PrintNat(n / 10);
    }
  }

  lemma {:induction false} NoLeadingZero(n: nat)
    ensures n > 0 ==> PrintNat(n)[0] != '0'
  {
    if n >= 10 {
      NoLeadingZero(n / 10);
    }
  }

  function StripZeros(s: string): string {
    if s != "" && s[0] == '0' then StripZeros(s[1..]) else s
  }

  lemma {:induction false} ZeroInFront(s: string)
    requires s != "" && s[0] == '0' && AllDigits(s)
    ensures AllDigits(s[1..]) && DigitsValue(s) == DigitsValue(s[1..])
  {
    if |s| > 1 {
      var init := s[..|s| - 1];
      ZeroInFront(init);
      assert init[1..] == s[1..][..|s| - 2];
    }
  }

  lemma {:induction false} StripKeepsValue(s: string)
    requires AllDigits(s)
    ensures AllDigits(StripZeros(s)) && DigitsValue(StripZeros(s)) == DigitsValue(s)
    ensures StripZeros(s) == "" || StripZeros(s)[0] != '0'
  {
    if s != "" && s[0] == '0' {
      ZeroInFront(s);
      StripKeepsValue(s[1..]);
    }
  }

  lemma {:induction false} CanonicalDigits(s: string)
    requires s != "" && AllDigits(s) && s[0] != '0'
    ensures DigitsValue(s) > 0 && PrintNat(DigitsValue(s)) == s
  {
    var init := s[..|s| - 1];
    if init != "" {
      CanonicalDigits(init);
      assert DigitsValue(s) / 10 == DigitsValue(init);
      assert s == init + [s[|s| - 1]];
    }
  }

  /** Dropping leading zeros prints the number anew. */
  lemma StrippedIsPrinted(s: string)
    requires s != "" && AllDigits(s)
    ensures (if StripZeros(s) == "" then "0" else StripZeros(s)) == PrintNat(DigitsValue(s))
  {
    StripKeepsValue(s);
    if StripZeros(s) != "" {
      CanonicalDigits(StripZeros(s));
    }
  }

  // ----- the round trip ---------------------------------------------------------------------------

  predicate IsWord(s: string) {
    s != "" && forall i :: 0 <= i < |s| ==> !IsWhitespace(s[i])
  }

  function Join(words: seq<string>): string {
    if words == [] then "" else if |words| == 1 then words[0] else words[0] + [' '] + Join(words[1..])
  }

  lemma PrintedOperand(n: Operand)
    ensures ParseOperand(PrintNat(n)) == Some(n)
    ensures IsWord(PrintNat(n))
  {
    PrintedIsDigits(n);
    assert IsDigit(PrintNat(n)[0]);
  }

  lemma {:induction false} WordEndsAt(word: string, rest: string)
    requires forall i :: 0 <= i < |word| ==> !IsWhitespace(word[i])
    requires rest == "" || IsWhitespace(rest[0])
    ensures Word(word + rest) == word
  {
    if word == "" {
      assert word + rest == rest;
    } else {
      assert (word + rest)[1..] == word[1..] + rest;
      WordEndsAt(word[1..], rest);
    }
  }

  /** Splitting peels off one printed word and the space behind it. */
  lemma SplitOne(word: string, rest: string)
    requires IsWord(word)
    ensures SplitWhitespace(word + [' '] + rest) == [word] + SplitWhitespace(rest)
    ensures SplitWhitespace(word) == [word]
  {
    var s := word + [' '] + rest;
    var tail := [' '] + rest;
    assert s == word + tail;
    WordEndsAt(word, tail);
    assert s[|word|..] == tail;
    assert tail[1..] == rest;
    WordEndsAt(word, "");
    assert word + "" == word;
    assert word[|word|..] == "";
  }

  lemma {:induction false} SplitJoined(words: seq<string>)
    requires forall i :: 0 <= i < |words| ==> IsWord(words[i])
    ensures SplitWhitespace(Join(words)) == words
    decreases |words|
  {
    if words != [] {
      SplitOne(words[0], Join(words[1..]));
      SplitJoined(words[1..]);
      assert words == [words[0]] + words[1..];
    }
  }

  function Words(e: Expression): seq<string> {
    [PrintNat(e.first), [SymbolOf(e.op1)], PrintNat(e.second), [SymbolOf(e.op2)], PrintNat(e.third)]
  }

  lemma JoinFive(a: string, b: string, c: string, d: string, e: string)
    ensures Join([a, b, c, d, e]) == a + [' '] + (b + [' '] + (c + [' '] + (d + [' '] + e)))
  {
    assert [a, b, c, d, e][1..] == [b, c, d, e];
    assert [b, c, d, e][1..] == [c, d, e];
    assert [c, d, e][1..] == [d, e];
    assert [d, e][1..] == [e];
    assert Join([d, e]) == d + [' '] + e;
    assert Join([c, d, e]) == c + [' '] + (d + [' '] + e);
    assert Join([b, c, d, e]) == b + [' '] + (c + [' '] + (d + [' '] + e));
  }

  lemma PrintIsJoin(e: Expression)
    ensures Print(e) == Join(Words(e))
  {
    JoinFive(PrintNat(e.first), [SymbolOf(e.op1)], PrintNat(e.second), [SymbolOf(e.op2)], PrintNat(e.third));
  }

  lemma PrintedWords(e: Expression)
    ensures SplitWhitespace(Print(e)) == Words(e)
  {
    PrintedOperand(e.first);
    PrintedOperand(e.second);
    PrintedOperand(e.third);
    PrintIsJoin(e);
    SplitJoined(Words(e));
  }

  lemma PrintThenParse(e: Expression)
    ensures ParseExpression(Print(e)) == Some(e)
  {
    PrintedWords(e);
    PrintedOperand(e.first);
    PrintedOperand(e.second);
    PrintedOperand(e.third);
  }

  /** Exactly the printed forms of bounded expressions are accepted, each with its own answer. */
  lemma AcceptedExactlyPrinted(text: string, answer: Operand)
    ensures AnswerFor(text) == Some(answer)
            <==> exists e :: text == Print(e) && BoundedAnswer(e) == Some(answer)
  {
    if AnswerFor(text) == Some(answer) {
      var e := ParseExpression(text).value;
      assert text == Print(e) && BoundedAnswer(e) == Some(answer);
    }
    if e :| text == Print(e) && BoundedAnswer(e) == Some(answer) {
      PrintThenParse(e);
    }
  }

  /** The accepted text means the expression it prints: the answer is its value under standard precedence. */
  lemma AcceptedMeansStandard(text: string)
    requires AnswerFor(text).Some?
    ensures ParseExpression(text).Some? && Print(ParseExpression(text).value) == text
    ensures StandardValue(Tokens(ParseExpression(text).value)) == Some(AnswerFor(text).value)
  {
    AnswerIsStandard(ParseExpression(text).value);
  }

  // ----- answers -------------------------------------------------------------------------------------

  datatype AnswerKind = Correct | Incorrect | NonNumeric

  /** The digits of an answer after compatibility normalization, trimming and one optional plus sign. */
  function AnswerDigits(nfkc: string -> string, raw: string): string {
    var value := Trim(nfkc(raw));
    if value != "" && value[0] == '+' then value[1..] else value
  }

  function NormalizeAnswer(nfkc: string -> string, raw: string): Option<string> {
    var value := AnswerDigits(nfkc, raw);
    if value == "" || !AllDigits(value) then None
    else Some(if StripZeros(value) == "" then "0" else StripZeros(value))
  }

  /** An answer normalizes to the canonical print of its number, however it is padded. */
  lemma NormalizedIsPrinted(nfkc: string -> string, raw: string)
    ensures var digits := AnswerDigits(nfkc, raw);
            NormalizeAnswer(nfkc, raw) ==
            if digits != "" && AllDigits(digits) then Some(PrintNat(DigitsValue(digits))) else None
  {
    var digits := AnswerDigits(nfkc, raw);
    if digits != "" && AllDigits(digits) {
      StrippedIsPrinted(digits);
    }
  }

  predicate IsAscii(s: string) {
    forall i :: 0 <= i < |s| ==> s[i] as int < 128
  }

  /** NFKC leaves ASCII alone. */
  ghost predicate KeepsAscii(nfkc: string -> string) {
    forall s :: IsAscii(s) ==> nfkc(s) == s
  }

  lemma PrintedNormalizesToItself(nfkc: string -> string, n: nat)
    requires KeepsAscii(nfkc)
    ensures AnswerDigits(nfkc, PrintNat(n)) == PrintNat(n)
    ensures NormalizeAnswer(nfkc, PrintNat(n)) == Some(PrintNat(n))
  {
    var s := PrintNat(n);
    PrintedIsDigits(n);
    assert IsAscii(s) by {
      assert forall i :: 0 <= i < |s| ==> IsDigit(s[i]);
    }
    assert IsDigit(s[0]) && IsDigit(s[|s| - 1]);
    TrimKeeps(s);
    NormalizedIsPrinted(nfkc, s);
  }

  /** The tag stored with a challenge: the keyed hash of the printed answer, in hex. */
  function Tag(mac: string -> seq<Byte>, answer: string): string {
    EncodeHex(mac(answer))
  }

  function Evaluate(mac: string -> seq<Byte>, nfkc: string -> string, raw: string, tag: string): AnswerKind {
    var answer := NormalizeAnswer(nfkc, raw);
    if answer.None? then NonNumeric
    else
      var expected := DecodeHex(tag);
      if expected.Some? && mac(answer.value) == expected.value then Correct else Incorrect
  }

  ghost predicate Injective(mac: string -> seq<Byte>) {
    forall a, b :: mac(a) == mac(b) ==> a == b
  }

  /** The verdict on any answer to a challenge whose tag was made for `n`. */
  lemma EvaluateIsExact(mac: string -> seq<Byte>, nfkc: string -> string, raw: string, n: nat)
    ensures var digits := AnswerDigits(nfkc, raw);
            var verdict := Evaluate(mac, nfkc, raw, Tag(mac, PrintNat(n)));
            && (verdict == NonNumeric <==> digits == "" || !AllDigits(digits))
            && (digits != "" && AllDigits(digits) && DigitsValue(digits) == n ==> verdict == Correct)
            && (Injective(mac) && verdict == Correct ==> digits != "" && AllDigits(digits) && DigitsValue(digits) == n)
  {
    DecodeEncoded(mac(PrintNat(n)));
    NormalizedIsPrinted(nfkc, raw);
    var digits := AnswerDigits(nfkc, raw);
    if digits != "" && AllDigits(digits) {
      PrintedIsDigits(DigitsValue(digits));
      PrintedIsDigits(n);
    }
  }

  /** Whoever types the printed answer passes. */
  lemma PrintedAnswerIsCorrect(mac: string -> seq<Byte>, nfkc: string -> string, n: nat)
    requires KeepsAscii(nfkc)
    ensures Evaluate(mac, nfkc, PrintNat(n), Tag(mac, PrintNat(n))) == Correct
  {
    PrintedNormalizesToItself(nfkc, n);
    DecodeEncoded(mac(PrintNat(n)));
  }

  // ----- what is asked and what is answered ------------------------------------------------------------

  /** The result of the step performed first. */
  function FirstStep(e: Expression): int {
    if e.op2 == Multiply && e.op1 != Multiply then e.second * e.third
    else match e.op1
         case Add => e.first + e.second
         case Subtract => e.first - e.second
         case Multiply => e.first * e.second
  }

  predicate TwoDigits(n: int) {
    0 <= n < 100
  }

  /** An expression is asked exactly if its value and its first step have at most two digits and no sign. */
  lemma BoundedExactly(e: Expression)
    ensures StandardValue(Tokens(e)).Some?
    ensures BoundedAnswer(e).Some? <==> TwoDigits(StandardValue(Tokens(e)).value) && TwoDigits(FirstStep(e))
  {
    var tail := [Symbol(e.op2), Number(e.third)];
    assert tail == tail + [];
    assert Tokens(e)[1..] == [Symbol(e.op1), Number(e.second)] + tail;
    TermStep(e.first, e.op1, e.second, tail);
    var left := if e.op1 == Multiply then e.first * e.second else e.second;
    TermStep(left, e.op2, e.third, []);
    if e.op1 != Multiply { SumStep(e.first, e.op1, e.second, tail); }
    if e.op2 != Multiply { SumStep(Perform(e.op1, e.first, e.second), e.op2, e.third, []); }
  }

  /** The usual value: products first, then from left to right. */
  lemma StandardExactly(e: Expression)
    ensures StandardValue(Tokens(e)) ==
            Some(match (e.op1, e.op2)
                 case (Add, Add) => e.first + e.second + e.third
                 case (Add, Subtract) => e.first + e.second - e.third
                 case (Add, Multiply) => e.first + e.second * e.third
                 case (Subtract, Add) => e.first - e.second + e.third
                 case (Subtract, Subtract) => e.first - e.second - e.third
                 case (Subtract, Multiply) => e.first - e.second * e.third
                 case (Multiply, Add) => e.first * e.second + e.third
                 case (Multiply, Subtract) => e.first * e.second - e.third
                 case (Multiply, Multiply) => e.first * e.second * e.third)
  {
    var tail := [Symbol(e.op2), Number(e.third)];
    assert tail == tail + [];
    assert Tokens(e)[1..] == [Symbol(e.op1), Number(e.second)] + tail;
    TermStep(e.first, e.op1, e.second, tail);
    var left := if e.op1 == Multiply then e.first * e.second else e.second;
    TermStep(left, e.op2, e.third, []);
    if e.op1 != Multiply { SumStep(e.first, e.op1, e.second, tail); }
    if e.op2 != Multiply { SumStep(Perform(e.op1, e.first, e.second), e.op2, e.third, []); }
  }

  lemma {:induction false} SpacesTrimmed(digits: string)
    requires digits != "" && AllDigits(digits)
    ensures Trim(" " + digits + " ") == digits
  {
    assert IsDigit(digits[0]) && IsDigit(digits[|digits| - 1]);
    var spaced, ended := " " + digits + " ", digits + " ";
    assert spaced[1..] == ended && ended[..|digits|] == digits;
    assert TrimStart(ended) == ended;
    assert TrimEnd(digits) == digits;
  }

  lemma SignTrimmed(digits: string)
    requires digits != "" && AllDigits(digits)
    ensures Trim("+" + digits) == "+" + digits && Trim(digits) == digits
  {
    assert IsDigit(digits[0]) && IsDigit(digits[|digits| - 1]);
    var signed := "+" + digits;
    assert signed[|signed| - 1] == digits[|digits| - 1];
    TrimKeeps(digits);
    TrimKeeps(signed);
  }

  lemma DigitsAreAscii(digits: string)
    requires AllDigits(digits)
    ensures IsAscii(digits) && IsAscii("+" + digits) && IsAscii(" " + digits + " ")
  {
    assert forall i :: 0 <= i < |digits| ==> IsDigit(digits[i]);
  }

  lemma SameDigits(mac: string -> seq<Byte>, nfkc: string -> string, a: string, b: string, tag: string)
    requires AnswerDigits(nfkc, a) == AnswerDigits(nfkc, b)
    ensures Evaluate(mac, nfkc, a, tag) == Evaluate(mac, nfkc, b, tag)
  {
  }

  /** One plus sign and blanks around a number change no verdict. */
  lemma PaddingChangesNothing(mac: string -> seq<Byte>, nfkc: string -> string, digits: string, tag: string)
    requires KeepsAscii(nfkc) && digits != "" && AllDigits(digits)
    ensures Evaluate(mac, nfkc, "+" + digits, tag) == Evaluate(mac, nfkc, digits, tag)
    ensures Evaluate(mac, nfkc, " " + digits + " ", tag) == Evaluate(mac, nfkc, digits, tag)
  {
    DigitsAreAscii(digits);
    SignTrimmed(digits);
    SpacesTrimmed(digits);
    assert IsDigit(digits[0]);
    assert ("+" + digits)[1..] == digits;
    SameDigits(mac, nfkc, "+" + digits, digits, tag);
    SameDigits(mac, nfkc, " " + digits + " ", digits, tag);
  }

  /** A number that is not the answer, or a tag that is no hex text, is Incorrect rather than no number at all. */
  lemma WrongNumberIsIncorrect(mac: string -> seq<Byte>, nfkc: string -> string, raw: string, tag: string)
    requires var digits := AnswerDigits(nfkc, raw); digits != "" && AllDigits(digits)
    ensures Evaluate(mac, nfkc, raw, tag) ==
            if DecodeHex(tag) == Some(mac(PrintNat(DigitsValue(AnswerDigits(nfkc, raw))))) then Correct else Incorrect
  {
    NormalizedIsPrinted(nfkc, raw);
  }
}
