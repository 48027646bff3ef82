/** The one-time owner claim: how the command is printed into the claim-code file and how a message is parsed back. */
module ClaimCode {
  import opened Prelude
  import opened Text

  type Byte = x: int | 0 <= x < 256

  const TOKEN_BYTES: nat := 32
  const COMMAND_LENGTH: nat := 72
  const PREFIX := "/claim "

  // ----- base 16, section 8 of RFC 4648, in lower case -----------------------------------

  function HexDigit(n: int): char
    requires 0 <= n < 16
  {
    if n < 10 then '0' + n as char else 'a' + (n - 10) as char
  }

  function HexValue(c: char): Option<int> {
    if '0' <= c <= '9' then Some((c - '0') as int)
    else if 'a' <= c <= 'f' then Some((c - 'a') as int + 10)
    else if 'A' <= c <= 'F' then Some((c - 'A') as int + 10)
    else None
  }

  predicate IsLowerHex(c: char) {
    '0' <= c <= '9' || 'a' <= c <= 'f'
  }

  function EncodeHex(token: seq<Byte>): (text: string)
    ensures |text| == 2 * |token|
  {
    if token == [] then "" else [HexDigit(token[0] / 16), HexDigit(token[0] % 16)] + EncodeHex(token[1..])
  }

  /** Pairs of digits of either case; anything else is an error. */
  function DecodeHex(text: string): Option<seq<Byte>> {
    if text == "" then Some([])
    else if |text| == 1 then None
    else
      var high, low, rest := HexValue(text[0]), HexValue(text[1]), DecodeHex(text[2..]);
      if high.None? || low.None? || rest.None? then None
      else Some([high.value * 16 + low.value] + rest.value)
  }

  lemma DigitRoundTrip(n: int)
    requires 0 <= n < 16
    ensures HexValue(HexDigit(n)) == Some(n) && IsLowerHex(HexDigit(n))
  {
  }

  lemma ValueRoundTrip(c: char)
    requires IsLowerHex(c)
    ensures HexValue(c).Some? && 0 <= HexValue(c).value < 16 && HexDigit(HexValue(c).value) == c
  {
  }

  lemma {:induction false} DecodeEncoded(token: seq<Byte>)
    ensures DecodeHex(EncodeHex(token)) == Some(token)
    ensures forall i :: 0 <= i < 2 * |token| ==> IsLowerHex(EncodeHex(token)[i])
  {
    if token != [] {
      DigitRoundTrip(token[0] / 16);
      DigitRoundTrip(token[0] % 16);
      DecodeEncoded(token[1..]);
      assert EncodeHex(token)[2..] == EncodeHex(token[1..]);
      assert token == [token[0]] + token[1..];
    }
  }

  lemma Nibbles(high: int, low: int)
    requires 0 <= high < 16 && 0 <= low < 16
    ensures 0 <= high * 16 + low < 256 && (high * 16 + low) / 16 == high && (high * 16 + low) % 16 == low
  {
  }

  lemma EncodeOneMore(first: Byte, rest: seq<Byte>)
    ensures EncodeHex([first] + rest) == [HexDigit(first / 16), HexDigit(first % 16)] + EncodeHex(rest)
  {
    assert ([first] + rest)[1..] == rest;
  }

  lemma {:induction false} EncodeDecoded(text: string)
    requires |text| % 2 == 0 && forall i :: 0 <= i < |text| ==> IsLowerHex(text[i])
    ensures DecodeHex(text).Some? && |DecodeHex(text).value| == |text| / 2 && EncodeHex(DecodeHex(text).value) == text
  {
    if text != "" {
      ValueRoundTrip(text[0]);
      ValueRoundTrip(text[1]);
      Nibbles(HexValue(text[0]).value, HexValue(text[1]).value);
      EncodeDecoded(text[2..]);
      var rest := DecodeHex(text[2..]).value;
      var first: Byte := HexValue(text[0]).value * 16 + HexValue(text[1]).value;
      EncodeOneMore(first, rest);
      assert text == [text[0], text[1]] + text[2..];
    }
  }

  // ----- printing ------------------------------------------------------------------------------

  /** The content of the claim-code file; only a 32-byte token has one. */
  function ExpectedCommand(token: seq<Byte>): (command: Option<string>)
    ensures command.Some? <==> |token| == TOKEN_BYTES
    ensures command.Some? ==> |command.value| == COMMAND_LENGTH && command.value[COMMAND_LENGTH - 1] == '\n'
  {
    if |token| != TOKEN_BYTES then None else Some(PREFIX + EncodeHex(token) + "\n")
  }

  // ----- parsing ---------------------------------------------------------------------------------

  datatype Context = Context(
    ordinary: bool,
    privateChat: bool,
    from: Option<int>,
    chat: int,
    message: int,
    date: int,
    text: Option<string>)

  datatype Parsed =
    | NotClaim
    | Ignored
    | Rejected(replyChat: int)
    | Candidate(from: int, chat: int, message: int, date: int, token: seq<Byte>)

  predicate WellPlaced(c: Context) {
    c.from.Some? && 0 < c.from.value && c.ordinary && c.privateChat && 0 < c.chat && 0 < c.message && 0 < c.date
  }

  function ParseOwnerClaim(c: Context): Parsed {
    if c.text.None? then NotClaim
    else
      var text := c.text.value;
      var trimmed := Trim(text);
      if !StartsWith(trimmed, "/claim") then NotClaim
      else if !WellPlaced(c) then Ignored
      else if text != trimmed || !StartsWith(text, PREFIX) then Rejected(c.chat)
      else
        var encoded := text[|PREFIX|..];
        if |encoded| != 2 * TOKEN_BYTES || !(forall i :: 0 <= i < |encoded| ==> IsLowerHex(encoded[i]))
          then Rejected(c.chat)
        else
          var token := DecodeHex(encoded);
          if token.None? then Rejected(c.chat)
          else Candidate(c.from.value, c.chat, c.message, c.date, token.value)
  }

  lemma PrintedText(token: seq<Byte>)
    requires |token| == TOKEN_BYTES
    ensures var text := PREFIX + EncodeHex(token);
            && Trim(text) == text
            && StartsWith(text, PREFIX) && StartsWith(text, "/claim")
            && text[|PREFIX|..] == EncodeHex(token)
  {
    var text := PREFIX + EncodeHex(token);
    DecodeEncoded(token);
    assert text[|text| - 1] == EncodeHex(token)[2 * TOKEN_BYTES - 1];
    assert IsLowerHex(text[|text| - 1]);
    TrimKeeps(text);
    assert text[..|PREFIX|] == PREFIX;
    assert text[..6] == "/claim";
    assert text[|PREFIX|..] == EncodeHex(token);
  }

  /** What the published file holds, without its newline, parses back to the very token. */
  lemma PublishedParsesBack(c: Context, token: seq<Byte>)
    requires |token| == TOKEN_BYTES && WellPlaced(c)
    requires c.text == Some(ExpectedCommand(token).value[..COMMAND_LENGTH - 1])
    ensures ParseOwnerClaim(c) == Candidate(c.from.value, c.chat, c.message, c.date, token)
  {
    var command := ExpectedCommand(token).value;
    assert command[..COMMAND_LENGTH - 1] == PREFIX + EncodeHex(token);
    PrintedText(token);
    DecodeEncoded(token);
  }

  /** A message is a claim for a token exactly if it is well placed and is that token's printed command. */
  lemma AcceptedExactlyPrinted(c: Context, token: seq<Byte>)
    requires c.text.Some?
    ensures (ParseOwnerClaim(c).Candidate? && ParseOwnerClaim(c).token == token)
            <==> WellPlaced(c) && |token| == TOKEN_BYTES && c.text.value + "\n" == ExpectedCommand(token).value
  {
    var text := c.text.value;
    if ParseOwnerClaim(c).Candidate? && ParseOwnerClaim(c).token == token {
      EncodeDecoded(text[|PREFIX|..]);
      assert text == PREFIX + text[|PREFIX|..];
    }
    if WellPlaced(c) && |token| == TOKEN_BYTES && text + "\n" == ExpectedCommand(token).value {
      assert text == (text + "\n")[..|text|];
      PublishedParsesBack(c, token);
    }
  }

  /** Two tokens never share a command. */
  lemma CommandsAreDistinct(a: seq<Byte>, b: seq<Byte>)
    requires ExpectedCommand(a).Some? && ExpectedCommand(a) == ExpectedCommand(b)
    ensures a == b
  {
    DecodeEncoded(a);
    DecodeEncoded(b);
    var command := ExpectedCommand(a).value;
    assert command[7..71] == EncodeHex(a);
    assert command[7..71] == EncodeHex(b);
  }

  /** Upper-case digits decode as well, to the same values. */
  lemma DigitsOfEitherCase(n: int)
    requires 10 <= n < 16
    ensures HexValue('a' + (n - 10) as char) == HexValue('A' + (n - 10) as char) == Some(n)
  {
  }

  /** The message may carry a claim at all: from somebody, ordinary, in a private chat, with positive IDs and date. */
  predicate MayClaim(c: Context) {
    && c.from.Some? && c.from.value > 0 && c.chat > 0 && c.message > 0 && c.date > 0
    && c.ordinary && c.privateChat
  }

  predicate LooksLikeClaim(c: Context) {
    c.text.Some? && |Trim(c.text.value)| >= 6 && Trim(c.text.value)[..6] == "/claim"
  }

  /** Which messages are no claims, are ignored, are rejected and are taken for a token. */
  lemma ParsesExactly(c: Context)
    ensures ParseOwnerClaim(c) == NotClaim <==> !LooksLikeClaim(c)
    ensures ParseOwnerClaim(c) == Ignored <==> LooksLikeClaim(c) && !MayClaim(c)
    ensures ParseOwnerClaim(c).Rejected? ==> ParseOwnerClaim(c).replyChat == c.chat
    ensures ParseOwnerClaim(c).Candidate? <==>
              MayClaim(c) && exists token :: |token| == TOKEN_BYTES && c.text == Some(PREFIX + EncodeHex(token))
    ensures ParseOwnerClaim(c).Candidate? ==>
              var p := ParseOwnerClaim(c);
              p == Candidate(c.from.value, c.chat, c.message, c.date, p.token)
  {
    if c.text.Some? {
      if ParseOwnerClaim(c).Candidate? {
        var token := ParseOwnerClaim(c).token;
        AcceptedExactlyPrinted(c, token);
        var text := c.text.value;
        assert ExpectedCommand(token).value == PREFIX + EncodeHex(token) + "\n";
        assert text == (text + "\n")[..|text|];
      }
      if MayClaim(c) && exists token :: |token| == TOKEN_BYTES && c.text == Some(PREFIX + EncodeHex(token)) {
        var token :| |token| == TOKEN_BYTES && c.text == Some(PREFIX + EncodeHex(token));
        AcceptedExactlyPrinted(c, token);
      }
    }
  }
}
