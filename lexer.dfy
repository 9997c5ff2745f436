/** The scanner: a single left-to-right pass over the source characters with
    two cursors (`start`, `current`) and a line counter.

    The first half of the module states, as functions, what one call of
    `scan_token` and what the whole scan produce. The class `Lexer` below is
    the imperative scanner; each of its methods is proved to do exactly what
    the corresponding function says. */
module Lexer {
  import opened Tokens

  // ---------------------------------------------------------------------
  // Character classes (ASCII only)
  // ---------------------------------------------------------------------

  predicate IsDigit(c: char) {
    '0' <= c <= '9'
  }

  predicate IsAlpha(c: char) {
    'a' <= c <= 'z' || 'A' <= c <= 'Z'
  }

  predicate IsAlphanumeric(c: char) {
    IsAlpha(c) || IsDigit(c)
  }

  /** The classes of characters that a scanning loop keeps consuming. */
  datatype CharClass = Digits | Alphanumerics | AllBut(stop: char)

  predicate InClass(c: char, cls: CharClass) {
    match cls
    case Digits => IsDigit(c)
    case Alphanumerics => IsAlphanumeric(c)
    case AllBut(stop) => c != stop
  }

  /** The index just past the longest run of `cls` characters starting at `i`. */
  function RunEnd(s: seq<char>, i: nat, cls: CharClass): (j: nat)
    requires i <= |s|
    ensures i <= j <= |s|
    ensures j == |s| || !InClass(s[j], cls)
    decreases |s| - i
  {
    if i < |s| && InClass(s[i], cls) then RunEnd(s, i + 1, cls) else i
  }

  lemma {:induction false} RunEndIsMaximal(s: seq<char>, i: nat, j: nat, cls: CharClass)
    requires i <= j <= |s|
    requires forall k :: i <= k < j ==> InClass(s[k], cls)
    requires j == |s| || !InClass(s[j], cls)
    ensures RunEnd(s, i, cls) == j
    decreases j - i
  {
    if i < j {
      RunEndIsMaximal(s, i + 1, j, cls);
    }
  }

  /** The number of line breaks among `s[i..j]`. */
  function NewlinesIn(s: seq<char>, i: nat, j: nat): nat
    requires i <= j <= |s|
    decreases j - i
  {
    if i == j then 0 else NewlinesIn(s, i, j - 1) + (if s[j - 1] == '\n' then 1 else 0)
  }

  /** The token kind of a scanned word: a keyword when the word is exactly
      one of the sixteen reserved words, an identifier otherwise. */
  function KeywordType(text: string): (t: TokenType)
    ensures t == TokenType.Identifier || IsKeyword(t)
  {
    Lookup(text, Keywords)
  }

  const Keywords: seq<(string, TokenType)> := [
    ("and", TokenType.And), ("class", TokenType.Class), ("else", TokenType.Else),
    ("false", TokenType.False), ("for", TokenType.For), ("fun", TokenType.Fun),
    ("if", TokenType.If), ("nil", TokenType.Nil), ("or", TokenType.Or),
    ("print", TokenType.Print), ("return", TokenType.Return), ("super", TokenType.Super),
    ("this", TokenType.This), ("true", TokenType.True), ("var", TokenType.Var),
    ("while", TokenType.While)]

  /** The kind the first entry of `table` spelled `text` maps to, or
      `Identifier` when there is none. */
  function Lookup(text: string, table: seq<(string, TokenType)>): (t: TokenType)
    ensures t == TokenType.Identifier || exists i :: 0 <= i < |table| && table[i] == (text, t)
    ensures (exists i :: 0 <= i < |table| && table[i].0 == text) ==>
              exists i :: 0 <= i < |table| && table[i] == (text, t)
  {
    if table == [] then TokenType.Identifier
    else if table[0].0 == text then table[0].1
    else
      var t := Lookup(text, table[1..]);
      assert forall i :: 1 <= i < |table| ==> table[i] == table[1..][i - 1];
      t
  }

  /** The end of a number whose first digit is at `pos`: the digit run, then
      a `.` and a second digit run only if a digit follows the `.`. */
  function NumberEnd(s: seq<char>, pos: nat): (e: nat)
    requires pos < |s|
    ensures pos < e <= |s|
    ensures e == |s| || !IsDigit(s[e])
  {
    var intEnd := RunEnd(s, pos + 1, Digits);
    if intEnd + 1 < |s| && s[intEnd] == '.' && IsDigit(s[intEnd + 1])
    then RunEnd(s, intEnd + 1, Digits)
    else intEnd
  }

  // ---------------------------------------------------------------------
  // What one step and the whole scan produce
  // ---------------------------------------------------------------------

  /** The effect of one `scan_token` call: the tokens it emits (none or
      one), where the cursor ends and the new line counter. */
  datatype Step = Step(emitted: seq<Token>, next: nat, line: nat)

  /** The end-of-input marker. */
  function EofToken(line: nat): Token {
    Token(TokenType.EOF, "", Literal.None, line)
  }

  function Emit(s: seq<char>, pos: nat, next: nat, t: TokenType, lit: Literal, line: nat): Step
    requires pos <= next <= |s|
  {
    Step([Token(t, s[pos..next], lit, line)], next, line)
  }

  /** `!`, `=`, `<` and `>`: two characters when an `=` follows. */
  function OneOrTwo(s: seq<char>, pos: nat, line: nat, one: TokenType, two: TokenType): (r: Step)
    requires pos < |s|
    ensures r.next == pos + 2 <==> pos + 1 < |s| && s[pos + 1] == '='
    ensures pos < r.next <= pos + 2 && r.next <= |s| && r.line == line
    ensures r.emitted == [Token(if r.next == pos + 2 then two else one, s[pos..r.next], Literal.None, line)]
  {
    if pos + 1 < |s| && s[pos + 1] == '='
    then Emit(s, pos, pos + 2, two, Literal.None, line)
    else Emit(s, pos, pos + 1, one, Literal.None, line)
  }

  /** `/`: a line comment when a second `/` follows, division otherwise. */
  function SlashStep(s: seq<char>, pos: nat, line: nat): (r: Step)
    requires pos < |s|
    ensures pos < r.next <= |s| && r.line == line
    ensures r.emitted == [] <==> pos + 1 < |s| && s[pos + 1] == '/'
    ensures r.emitted == [] ==> r.next == |s| || s[r.next] == '\n'
    ensures r.emitted != [] ==> r == Step([Token(TokenType.Slash, s[pos..pos + 1], Literal.None, line)], pos + 1, line)
  {
    if pos + 1 < |s| && s[pos + 1] == '/'
    then Step([], RunEnd(s, pos + 2, AllBut('\n')), line)
    else Emit(s, pos, pos + 1, TokenType.Slash, Literal.None, line)
  }

  /** A string literal opened at `pos`. */
  function StringStep(s: seq<char>, pos: nat, line: nat): (r: Step)
    requires pos < |s|
    ensures pos < r.next <= |s| && line <= r.line
    ensures r.emitted == [] ==> r.next == |s|
    ensures r.emitted != [] ==>
      pos + 2 <= r.next && s[r.next - 1] == '"'
      && r.emitted == [Token(TokenType.String, s[pos..r.next], Literal.String(s[pos + 1..r.next - 1]), r.line)]
  {
    var close := RunEnd(s, pos + 1, AllBut('"'));
    var endLine := line + NewlinesIn(s, pos + 1, close);
    if close == |s|
    then Step([], close, endLine)
    else Emit(s, pos, close + 1, TokenType.String, Literal.String(s[pos + 1..close]), endLine)
  }

  /** A number whose first digit is at `pos`. */
  function NumberStep(s: seq<char>, pos: nat, line: nat): (r: Step)
    requires pos < |s|
    ensures pos < r.next <= |s| && r.line == line
    ensures r.next == |s| || !IsDigit(s[r.next])
    ensures r.emitted == [Token(TokenType.Number, s[pos..r.next], Literal.Number(s[pos..r.next]), line)]
  {
    var e := NumberEnd(s, pos);
    Emit(s, pos, e, TokenType.Number, Literal.Number(s[pos..e]), line)
  }

  /** A word whose first letter is at `pos`. */
  function IdentifierStep(s: seq<char>, pos: nat, line: nat): (r: Step)
    requires pos < |s|
    ensures pos < r.next <= |s| && r.line == line
    ensures r.next == |s| || !IsAlphanumeric(s[r.next])
    ensures r.emitted == [Token(KeywordType(s[pos..r.next]), s[pos..r.next], Literal.None, line)]
  {
    var e := RunEnd(s, pos + 1, Alphanumerics);
    Emit(s, pos, e, KeywordType(s[pos..e]), Literal.None, line)
  }

  /** What a character starts when `scan_token` reads it. */
  datatype Opening =
    | Single(tokenType: TokenType)
    | OneOrTwoChars(one: TokenType, two: TokenType)
    | SlashOrComment
    | LineBreak
    | Quote
    | Digit
    | Letter
    | Skipped

  function Classify(c: char): (o: Opening)
    ensures o == LineBreak <==> c == '\n'
    ensures o.Single? ==> o.tokenType !in {TokenType.EOF, TokenType.String, TokenType.Number}
    ensures o.OneOrTwoChars? ==>
      o.one !in {TokenType.EOF, TokenType.String, TokenType.Number}
      && o.two !in {TokenType.EOF, TokenType.String, TokenType.Number}
  {
    match c
    case '(' => Single(TokenType.LeftParen)
    case ')' => Single(TokenType.RightParen)
    case '{' => Single(TokenType.LeftBrace)
    case '}' => Single(TokenType.RightBrace)
    case ',' => Single(TokenType.Comma)
    case '.' => Single(TokenType.Dot)
    case '-' => Single(TokenType.Minus)
    case '+' => Single(TokenType.Plus)
    case ';' => Single(TokenType.SemiColon)
    case '*' => Single(TokenType.Star)
    case '!' => OneOrTwoChars(TokenType.Bang, TokenType.BangEqual)
    case '=' => OneOrTwoChars(TokenType.Equal, TokenType.EqualEqual)
    case '<' => OneOrTwoChars(TokenType.Less, TokenType.LessEqual)
    case '>' => OneOrTwoChars(TokenType.Greater, TokenType.GreaterEqual)
    case '/' => SlashOrComment
    case '\n' => LineBreak
    case '"' => Quote
    case _ => if IsDigit(c) then Digit else if IsAlpha(c) then Letter else Skipped
  }

  /** One `scan_token` call starting with `start == current == pos`. */
  function StepAt(s: seq<char>, pos: nat, line: nat): (r: Step)
    requires pos < |s|
    ensures pos < r.next <= |s| && line <= r.line
    ensures |r.emitted| <= 1
  {
    match Classify(s[pos])
    case Single(t) => Emit(s, pos, pos + 1, t, Literal.None, line)
    case OneOrTwoChars(one, two) => OneOrTwo(s, pos, line, one, two)
    case SlashOrComment => SlashStep(s, pos, line)
    case LineBreak => Step([], pos + 1, line + 1)
    case Quote => StringStep(s, pos, line)
    case Digit => NumberStep(s, pos, line)
    case Letter => IdentifierStep(s, pos, line)
    case Skipped => Step([], pos + 1, line)
  }

  /** The tokens scanned from `pos` to the end, and the final line counter. */
  datatype Scanned = Scanned(tokens: seq<Token>, line: nat)

  function ScanFrom(s: seq<char>, pos: nat, line: nat): (r: Scanned)
    requires pos <= |s|
    ensures line <= r.line
    decreases |s| - pos
  {
    if pos == |s| then Scanned([], line)
    else
      var step := StepAt(s, pos, line);
      var rest := ScanFrom(s, step.next, step.line);
      Scanned(step.emitted + rest.tokens, rest.line)
  }

  /** One turn of the scanning loop keeps what is scanned plus what is left
      to scan the same. */
  lemma {:induction false} ScanFromStep(s: seq<char>, pos: nat, line: nat, whole: seq<Token>, before: seq<Token>)
    requires pos < |s| && whole == before + ScanFrom(s, pos, line).tokens
    ensures var step := StepAt(s, pos, line);
      var rest := ScanFrom(s, step.next, step.line);
      whole == (before + step.emitted) + rest.tokens && ScanFrom(s, pos, line).line == rest.line
  {
    var step := StepAt(s, pos, line);
    var rest := ScanFrom(s, step.next, step.line);
    assert ScanFrom(s, pos, line) == Scanned(step.emitted + rest.tokens, rest.line);
    assert (before + step.emitted) + rest.tokens == before + (step.emitted + rest.tokens);
  }

  /** The result of `scan_tokens` on a fresh scanner. */
  function Scan(s: seq<char>): seq<Token> {
    var r := ScanFrom(s, 0, 1);
    r.tokens + [EofToken(r.line)]
  }

  // ---------------------------------------------------------------------
  // The imperative scanner
  // ---------------------------------------------------------------------

  class Lexer {
    const source: string
    var tokens: seq<Token>
    var start: nat
    var current: nat
    var line: nat

    ghost predicate Valid()
      reads this
    {
      start <= current <= |source|
    }

    constructor (source: string)
      ensures this.source == source && tokens == []
      ensures start == 0 && current == 0 && line == 1
      ensures Valid()
    {
      this.source := source;
      tokens := [];
      start := 0;
      current := 0;
      line := 1;
    }

    /** Scans the rest of the source, then appends the end-of-input token. */
    method ScanTokens() returns (result: seq<Token>)
      requires Valid()
      modifies this
      ensures Valid()
      ensures var rest := ScanFrom(source, old(current), old(line));
              tokens == old(tokens) + rest.tokens + [EofToken(rest.line)]
      ensures current == |source| && line == ScanFrom(source, old(current), old(line)).line
      ensures result == tokens
    {
      ghost var all := ScanFrom(source, current, line);
      while !IsAtEnd()
        invariant Valid()
        invariant old(tokens) + all.tokens == tokens + ScanFrom(source, current, line).tokens
        invariant all.line == ScanFrom(source, current, line).line
        decreases |source| - current
      {
        ScanFromStep(source, current, line, old(tokens) + all.tokens, tokens);
        start := current;
        ScanToken();
      }
      assert ScanFrom(source, current, line) == Scanned([], line);
      AddToken(TokenType.EOF);
      result := tokens;
    }

    function IsAtEnd(): bool
      reads this
    {
      current >= |source|
    }

    /** One token's worth of input: the character at `current` and whatever
        it starts. */
    method ScanToken()
      requires Valid() && start == current < |source|
      modifies this`tokens, this`current, this`line
      ensures Valid()
      ensures var step := StepAt(source, old(current), old(line));
              tokens == old(tokens) + step.emitted && current == step.next && line == step.line
    {
      var c := Advance();
      match Classify(c)
      case Single(t) => AddToken(t);
      case OneOrTwoChars(one, two) =>
        var matched := MatchNext('=');
        if matched { AddToken(two); } else { AddToken(one); }
      case SlashOrComment =>
        var matched := MatchNext('/');
        if matched {
          // a line comment runs up to, not including, the line break
          AdvanceWhile(AllBut('\n'));
        } else {
          AddToken(TokenType.Slash);
        }
      case LineBreak => line := line + 1;
      case Quote => ScanString();
      case Digit => ScanNumber();
      case Letter => ScanIdentifier();
      case Skipped =>
    }

    /** The scanning loops of `scan_token`, `number` and `identifier`: keep
        consuming while the next character is in `cls`. */
    method AdvanceWhile(cls: CharClass)
      requires current <= |source|
      modifies this`current
      ensures current == RunEnd(source, old(current), cls)
    {
      while !IsAtEnd() && InClass(Peek(), cls)
        invariant old(current) <= current <= |source|
        invariant forall k :: old(current) <= k < current ==> InClass(source[k], cls)
        decreases |source| - current
      {
        var _ := Advance();
      }
      RunEndIsMaximal(source, old(current), current, cls);
    }

    method Advance() returns (c: char)
      requires current < |source|
      modifies this`current
      ensures c == source[old(current)] && current == old(current) + 1
    {
      c := source[current];
      current := current + 1;
    }

    method AddToken(tokenType: TokenType)
      requires start <= current <= |source|
      modifies this`tokens
      ensures tokens == old(tokens) + [Token(tokenType, if tokenType == TokenType.EOF then "" else source[start..current], Literal.None, line)]
    {
      AddTokenWithLiteral(tokenType, Literal.None);
    }

    /** Consumes the next character only when it is `expected`. */
    method MatchNext(expected: char) returns (matched: bool)
      requires current <= |source|
      modifies this`current
      ensures matched <==> old(current) < |source| && source[old(current)] == expected
      ensures current == if matched then old(current) + 1 else old(current)
    {
      if IsAtEnd() {
        return false;
      }
      if source[current] != expected {
        return false;
      }
      current := current + 1;
      return true;
    }

    /** The character at `current`, or NUL at the end of the input. */
    function Peek(): char
      reads this
    {
      if IsAtEnd() then '\0' else source[current]
    }

    /** The character after the one at `current`, or NUL past the end. */
    function PeekNext(): char
      reads this
    {
      if current + 1 >= |source| then '\0' else source[current + 1]
    }

    /** The rest of a string literal whose opening quote is at `start`. An
        unterminated string emits nothing. */
    method ScanString()
      requires start + 1 == current <= |source| && source[start] == '"'
      modifies this`tokens, this`current, this`line
      ensures Valid()
      ensures var step := StringStep(source, start, old(line));
              tokens == old(tokens) + step.emitted && current == step.next && line == step.line
    {
      SkipStringBody();
      ghost var close := current;
      ghost var step := StringStep(source, start, old(line));
      if IsAtEnd() {
        assert step == Step([], close, line);
        return;
      }
      var _ := Advance();
      AddTokenWithLiteral(TokenType.String, Literal.String(source[start + 1..current - 1]));
      assert step == Emit(source, start, close + 1, TokenType.String, Literal.String(source[start + 1..close]), line);
    }

    /** The loop of `string`: up to the closing quote or the end of input,
        counting line breaks on the way. */
    method SkipStringBody()
      requires start + 1 == current <= |source|
      modifies this`current, this`line
      ensures current == RunEnd(source, start + 1, AllBut('"'))
      ensures line == old(line) + NewlinesIn(source, start + 1, current)
    {
      while Peek() != '"' && !IsAtEnd()
        invariant start + 1 <= current <= |source|
        invariant forall k :: start + 1 <= k < current ==> source[k] != '"'
        invariant line == old(line) + NewlinesIn(source, start + 1, current)
        decreases |source| - current
      {
        if Peek() == '\n' {
          line := line + 1;
        }
        var _ := Advance();
      }
      RunEndIsMaximal(source, start + 1, current, AllBut('"'));
    }

    /** The rest of a number whose first digit is at `start`. */
    method ScanNumber()
      requires start + 1 == current <= |source| && IsDigit(source[start])
      modifies this`tokens, this`current
      ensures Valid()
      ensures var step := NumberStep(source, start, line);
              tokens == old(tokens) + step.emitted && current == step.next && line == step.line
    {
      AdvanceWhile(Digits);
      ghost var intEnd := current;
      if Peek() == '.' && IsDigit(PeekNext()) {
        var _ := Advance();
        AdvanceWhile(Digits);
      }
      assert current == NumberEnd(source, start);
      AddTokenWithLiteral(TokenType.Number, Literal.Number(source[start..current]));
    }

    /** The rest of a word whose first letter is at `start`. */
    method ScanIdentifier()
      requires start + 1 == current <= |source| && IsAlpha(source[start])
      modifies this`tokens, this`current
      ensures Valid()
      ensures var step := IdentifierStep(source, start, line);
              tokens == old(tokens) + step.emitted && current == step.next && line == step.line
    {
      AdvanceWhile(Alphanumerics);
      AddToken(KeywordType(source[start..current]));
    }

    /** Appends one token. The end-of-input token has an empty lexeme; every
        other token's lexeme is the text between the two cursors. */
    method AddTokenWithLiteral(tokenType: TokenType, literal: Literal)
      requires start <= current <= |source|
      modifies this`tokens
      ensures tokens == old(tokens) + [Token(tokenType, if tokenType == TokenType.EOF then "" else source[start..current], literal, line)]
    {
      match tokenType
      case EOF =>
        tokens := tokens + [Token(TokenType.EOF, "", literal, line)];
      case _ =>
        var lexeme := source[start..current];
        tokens := tokens + [Token(tokenType, lexeme, literal, line)];
    }
  }
}
