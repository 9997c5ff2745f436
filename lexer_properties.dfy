/** What the scanner promises, proved about the functions of `Lexer`: the
    token stream ends with exactly one end marker, lines are counted exactly
    and never go down, each token's text is the slice it was scanned from,
    and each kind of lexeme is scanned by maximal munch. */
module LexerProperties {
  import opened Tokens
  import opened Lexer

  // ---------------------------------------------------------------------
  // Line counting
  // ---------------------------------------------------------------------

  lemma {:induction false} NewlinesSplit(s: seq<char>, i: nat, j: nat, k: nat)
    requires i <= j <= k <= |s|
    ensures NewlinesIn(s, i, k) == NewlinesIn(s, i, j) + NewlinesIn(s, j, k)
    decreases k - j
  {
    if j < k {
      NewlinesSplit(s, i, j, k - 1);
    }
  }

  /** A slice without a line break holds no line break. */
  lemma {:induction false} NoNewlines(s: seq<char>, i: nat, j: nat)
    requires i <= j <= |s|
    requires forall k :: i <= k < j ==> s[k] != '\n'
    ensures NewlinesIn(s, i, j) == 0
    decreases j - i
  {
    if i < j {
      NoNewlines(s, i, j - 1);
    }
  }

  /** Every character of a run is in its class. */
  lemma {:induction false} RunInClass(s: seq<char>, i: nat, cls: CharClass)
    requires i <= |s|
    ensures forall k :: i <= k < RunEnd(s, i, cls) ==> InClass(s[k], cls)
    ensures RunEnd(s, i, cls) == |s| || !InClass(s[RunEnd(s, i, cls)], cls)
    decreases |s| - i
  {
    if i < |s| && InClass(s[i], cls) {
      RunInClass(s, i + 1, cls);
    }
  }

  /** A run of a class that excludes the line break crosses no line. */
  lemma {:induction false} RunHasNoNewlines(s: seq<char>, i: nat, cls: CharClass)
    requires i <= |s| && !InClass('\n', cls)
    ensures NewlinesIn(s, i, RunEnd(s, i, cls)) == 0
  {
    RunInClass(s, i, cls);
    NoNewlines(s, i, RunEnd(s, i, cls));
  }

  /** One step moves the line counter by the line breaks it passed over. */
  lemma {:induction false} StepLines(s: seq<char>, pos: nat, line: nat)
    requires pos < |s|
    ensures StepAt(s, pos, line).line == line + NewlinesIn(s, pos, StepAt(s, pos, line).next)
  {
    match Classify(s[pos])
    case Single(_) =>
      assert NewlinesIn(s, pos, pos + 1) == 0;
    case OneOrTwoChars(one, two) =>
      OneOrTwoLines(s, pos, line, one, two);
    case SlashOrComment =>
      SlashLines(s, pos, line);
    case LineBreak =>
      assert NewlinesIn(s, pos, pos + 1) == 1;
    case Quote =>
      StringLines(s, pos, line);
    case Digit =>
      NumberHasNoNewlines(s, pos);
      PastFirst(s, pos, NumberEnd(s, pos));
    case Letter =>
      RunHasNoNewlines(s, pos + 1, Alphanumerics);
      PastFirst(s, pos, RunEnd(s, pos + 1, Alphanumerics));
    case Skipped =>
      assert NewlinesIn(s, pos, pos + 1) == 0;
  }

  /** A step that opens on something other than a line break counts the
      line breaks after its first character. */
  lemma {:induction false} PastFirst(s: seq<char>, pos: nat, next: nat)
    requires pos < next <= |s| && s[pos] != '\n'
    ensures NewlinesIn(s, pos, next) == NewlinesIn(s, pos + 1, next)
  {
    NewlinesSplit(s, pos, pos + 1, next);
    assert NewlinesIn(s, pos, pos + 1) == 0;
  }

  lemma {:induction false} OneOrTwoLines(s: seq<char>, pos: nat, line: nat, one: TokenType, two: TokenType)
    requires pos < |s| && s[pos] != '\n'
    ensures var r := OneOrTwo(s, pos, line, one, two); r.line == line + NewlinesIn(s, pos, r.next)
  {
    var r := OneOrTwo(s, pos, line, one, two);
    NoNewlines(s, pos + 1, r.next);
    PastFirst(s, pos, r.next);
  }

  lemma {:induction false} SlashLines(s: seq<char>, pos: nat, line: nat)
    requires pos < |s| && s[pos] == '/'
    ensures var r := SlashStep(s, pos, line); r.line == line + NewlinesIn(s, pos, r.next)
  {
    var r := SlashStep(s, pos, line);
    if pos + 1 < |s| && s[pos + 1] == '/' {
      NewlinesSplit(s, pos + 1, pos + 2, r.next);
      RunHasNoNewlines(s, pos + 2, AllBut('\n'));
    }
    PastFirst(s, pos, r.next);
  }

  lemma {:induction false} StringLines(s: seq<char>, pos: nat, line: nat)
    requires pos < |s| && s[pos] == '"'
    ensures var r := StringStep(s, pos, line); r.line == line + NewlinesIn(s, pos, r.next)
  {
    var r := StringStep(s, pos, line);
    var close := RunEnd(s, pos + 1, AllBut('"'));
    if close < |s| {
      NewlinesSplit(s, pos + 1, close, close + 1);
      RunInClass(s, pos + 1, AllBut('"'));
      assert NewlinesIn(s, close, close + 1) == 0;
    }
    PastFirst(s, pos, r.next);
  }

  /** A number spans no line break. */
  lemma {:induction false} NumberHasNoNewlines(s: seq<char>, pos: nat)
    requires pos < |s|
    ensures NewlinesIn(s, pos + 1, NumberEnd(s, pos)) == 0
  {
    var intEnd := RunEnd(s, pos + 1, Digits);
    RunHasNoNewlines(s, pos + 1, Digits);
    if NumberEnd(s, pos) != intEnd {
      NewlinesSplit(s, pos + 1, intEnd, NumberEnd(s, pos));
      NewlinesSplit(s, intEnd, intEnd + 1, NumberEnd(s, pos));
      RunHasNoNewlines(s, intEnd + 1, Digits);
    }
  }

  // ---------------------------------------------------------------------
  // The shape of the token stream
  // ---------------------------------------------------------------------

  /** The final line counter is the starting one plus the line breaks read. */
  lemma {:induction false} ScanFromLines(s: seq<char>, pos: nat, line: nat)
    requires pos <= |s|
    ensures ScanFrom(s, pos, line).line == line + NewlinesIn(s, pos, |s|)
    decreases |s| - pos
  {
    if pos < |s| {
      var step := StepAt(s, pos, line);
      StepLines(s, pos, line);
      ScanFromLines(s, step.next, step.line);
      NewlinesSplit(s, pos, step.next, |s|);
    }
  }

  /** Lines never go down along the scanned tokens. */
  predicate LinesAscend(ts: seq<Token>) {
    forall i, j :: 0 <= i <= j < |ts| ==> ts[i].line <= ts[j].line
  }

  /** No scanned token is an end marker; all lie between the starting and the
      final line counter, and their lines never go down. */
  lemma {:induction false} ScanFromTokens(s: seq<char>, pos: nat, line: nat)
    requires pos <= |s|
    ensures var r := ScanFrom(s, pos, line);
      (forall t :: t in r.tokens ==> t.tokenType != TokenType.EOF && line <= t.line <= r.line)
      && LinesAscend(r.tokens)
    decreases |s| - pos
  {
    if pos < |s| {
      var step := StepAt(s, pos, line);
      var rest := ScanFrom(s, step.next, step.line);
      StepFacts(s, pos, line);
      ScanFromTokens(s, step.next, step.line);
      assert step.line <= rest.line by {
        ScanFromLines(s, step.next, step.line);
      }
      var ts := step.emitted + rest.tokens;
      forall i, j | 0 <= i <= j < |ts|
        ensures ts[i].line <= ts[j].line
      {
        if j < |step.emitted| {
          assert i == j;
        } else if i >= |step.emitted| {
          assert ts[i] == rest.tokens[i - |step.emitted|];
          assert ts[j] == rest.tokens[j - |step.emitted|];
        } else {
          assert ts[j] in rest.tokens;
        }
      }
    }
  }

  /** The last token is the one end marker, on line `line`, and the lines
      of all tokens never go down. */
  predicate EndsWithMarker(ts: seq<Token>, line: nat) {
    |ts| >= 1 && ts[|ts| - 1] == EofToken(line)
    && (forall i :: 0 <= i < |ts| - 1 ==> ts[i].tokenType != TokenType.EOF)
    && LinesAscend(ts)
  }

  /** `scan_tokens` on a fresh scanner: the last token is the one end marker,
      with empty text, no literal and the line one past the number of line
      breaks; the lines of all tokens never go down. */
  lemma {:induction false} ScanEndsWithEof(s: seq<char>)
    ensures EndsWithMarker(Scan(s), 1 + NewlinesIn(s, 0, |s|))
  {
    var r := ScanFrom(s, 0, 1);
    ScanFromLines(s, 0, 1);
    ScanFromTokens(s, 0, 1);
    MarkerAppended(r.tokens, r.line);
  }

  /** An end marker on a line no earlier than any token before it, after
      tokens that are not end markers, is the one end marker of the list and
      keeps the lines ascending. */
  lemma {:induction false} MarkerAppended(ts: seq<Token>, line: nat)
    requires LinesAscend(ts)
    requires forall t :: t in ts ==> t.tokenType != TokenType.EOF && t.line <= line
    ensures EndsWithMarker(ts + [EofToken(line)], line)
  {
    var all := ts + [EofToken(line)];
    forall i | 0 <= i < |all| - 1
      ensures all[i].tokenType != TokenType.EOF
    {
      assert all[i] == ts[i];
    }
    forall i, j | 0 <= i <= j < |all|
      ensures all[i].line <= all[j].line
    {
      if j < |ts| {
        assert all[i] == ts[i] && all[j] == ts[j];
      } else if i < |ts| {
        assert all[i] in ts;
      }
    }
  }

  // ---------------------------------------------------------------------
  // One step
  // ---------------------------------------------------------------------

  /** What a token emitted by one step looks like: its text is exactly the
      slice scanned, its line is the line counter after the step, it is never
      an end marker, and it carries a literal exactly when it is a string or
      a number. */
  predicate WellFormedStep(s: seq<char>, pos: nat, line: nat, r: Step)
    requires pos <= r.next <= |s|
  {
    line <= r.line
    && forall t :: t in r.emitted ==>
      t.lexeme == s[pos..r.next] && t.line == r.line && t.tokenType != TokenType.EOF
      && (t.literal == Literal.None <==> t.tokenType !in {TokenType.String, TokenType.Number})
  }

  lemma {:induction false} StepFacts(s: seq<char>, pos: nat, line: nat)
    requires pos < |s|
    ensures WellFormedStep(s, pos, line, StepAt(s, pos, line))
  {
    match Classify(s[pos])
    case Single(t) =>
      EmittedToken(s, pos, pos + 1, t, Literal.None, line);
    case OneOrTwoChars(one, two) =>
      if pos + 1 < |s| && s[pos + 1] == '=' {
        EmittedToken(s, pos, pos + 2, two, Literal.None, line);
      } else {
        EmittedToken(s, pos, pos + 1, one, Literal.None, line);
      }
    case SlashOrComment =>
      if !(pos + 1 < |s| && s[pos + 1] == '/') {
        EmittedToken(s, pos, pos + 1, TokenType.Slash, Literal.None, line);
      }
    case LineBreak =>
    case Quote =>
      var close := RunEnd(s, pos + 1, AllBut('"'));
      if close < |s| {
        EmittedToken(s, pos, close + 1, TokenType.String, Literal.String(s[pos + 1..close]),
                     line + NewlinesIn(s, pos + 1, close));
      }
    case Digit =>
      var e := NumberEnd(s, pos);
      EmittedToken(s, pos, e, TokenType.Number, Literal.Number(s[pos..e]), line);
    case Letter =>
      var e := RunEnd(s, pos + 1, Alphanumerics);
      WordKinds(s[pos..e]);
      EmittedToken(s, pos, e, KeywordType(s[pos..e]), Literal.None, line);
    case Skipped =>
  }

  /** A word is a name or a keyword, never a kind that carries a literal. */
  lemma {:induction false} WordKinds(text: string)
    ensures KeywordType(text) !in {TokenType.EOF, TokenType.String, TokenType.Number}
  {
  }

  /** The one token `Emit` produces has the slice as its text and the line
      it was given; its kind and literal are the ones passed. */
  lemma {:induction false} EmittedToken(s: seq<char>, pos: nat, next: nat, t: TokenType, lit: Literal, line: nat)
    requires pos <= next <= |s| && t != TokenType.EOF
    requires lit == Literal.None <==> t !in {TokenType.String, TokenType.Number}
    ensures WellFormedStep(s, pos, line, Emit(s, pos, next, t, lit, line))
  {
  }

  // ---------------------------------------------------------------------
  // Maximal munch, lexeme by lexeme
  // ---------------------------------------------------------------------

  /** The kinds of `!`, `=`, `<` and `>`, alone or followed by `=`. */
  function OperatorKind(c: char, withEqual: bool): TokenType
    requires c in "!=<>"
  {
    if c == '!' then (if withEqual then TokenType.BangEqual else TokenType.Bang)
    else if c == '=' then (if withEqual then TokenType.EqualEqual else TokenType.Equal)
    else if c == '<' then (if withEqual then TokenType.LessEqual else TokenType.Less)
    else (if withEqual then TokenType.GreaterEqual else TokenType.Greater)
  }

  /** `!`, `=`, `<`, `>` take a following `=` into one two-character token;
      otherwise, also at the end of the input, they stand alone. */
  lemma {:induction false} OperatorMunch(s: seq<char>, pos: nat, line: nat)
    requires pos < |s| && s[pos] in "!=<>"
    ensures var withEqual := pos + 1 < |s| && s[pos + 1] == '=';
      var r := StepAt(s, pos, line);
      r.next == (if withEqual then pos + 2 else pos + 1)
      && r == Step([Token(OperatorKind(s[pos], withEqual), s[pos..r.next], Literal.None, line)], r.next, line)
  {
  }

  /** `//` skips to the next line break, or to the end, and emits nothing. */
  lemma {:induction false} CommentSkipped(s: seq<char>, pos: nat, line: nat)
    requires pos + 1 < |s| && s[pos] == '/' && s[pos + 1] == '/'
    ensures var r := StepAt(s, pos, line);
      r.emitted == [] && r.line == line && pos + 2 <= r.next
      && (r.next == |s| || s[r.next] == '\n')
      && forall k :: pos + 2 <= k < r.next ==> s[k] != '\n'
  {
    RunInClass(s, pos + 2, AllBut('\n'));
  }

  /** A `/` not followed by another `/` is division. */
  lemma {:induction false} LoneSlash(s: seq<char>, pos: nat, line: nat)
    requires pos < |s| && s[pos] == '/' && !(pos + 1 < |s| && s[pos + 1] == '/')
    ensures StepAt(s, pos, line) == Step([Token(TokenType.Slash, "/", Literal.None, line)], pos + 1, line)
  {
    assert Classify(s[pos]) == SlashOrComment;
    assert s[pos..pos + 1] == "/";
  }

  /** A string closed by the first `"` after the opening one: one token whose
      literal is the text between the quotes as it stands, and the line
      counter moved past the line breaks inside. */
  lemma {:induction false} StringTerminated(s: seq<char>, pos: nat, line: nat, close: nat)
    requires pos < close < |s| && s[pos] == '"' && s[close] == '"'
    requires forall k :: pos < k < close ==> s[k] != '"'
    ensures var endLine := line + NewlinesIn(s, pos + 1, close);
      StepAt(s, pos, line)
        == Step([Token(TokenType.String, s[pos..close + 1], Literal.String(s[pos + 1..close]), endLine)], close + 1, endLine)
  {
    RunEndIsMaximal(s, pos + 1, close, AllBut('"'));
    assert Classify(s[pos]) == Quote;
  }

  /** A string never closed: no token, the rest of the input consumed, only
      its line breaks counted. */
  lemma {:induction false} StringUnterminated(s: seq<char>, pos: nat, line: nat)
    requires pos < |s| && s[pos] == '"'
    requires forall k :: pos < k < |s| ==> s[k] != '"'
    ensures StepAt(s, pos, line) == Step([], |s|, line + NewlinesIn(s, pos + 1, |s|))
    ensures ScanFrom(s, pos, line) == Scanned([], line + NewlinesIn(s, pos + 1, |s|))
  {
    RunEndIsMaximal(s, pos + 1, |s|, AllBut('"'));
  }

  predicate AllDigits(s: seq<char>, i: nat, j: nat)
    requires i <= j <= |s|
  {
    forall k :: i <= k < j ==> IsDigit(s[k])
  }

  /** `s[i..j]` spells a number: digits, optionally a `.` and more digits. */
  predicate NumberShape(s: seq<char>, i: nat, j: nat)
    requires i <= j <= |s|
  {
    (i < j && AllDigits(s, i, j))
    || exists d :: i < d < j - 1 && s[d] == '.' && AllDigits(s, i, d) && AllDigits(s, d + 1, j)
  }

  /** A number is the longest digit run, then a `.` and a digit run only if a
      digit follows the `.`; its literal keeps the lexeme. */
  lemma {:induction false} NumberMunch(s: seq<char>, pos: nat, line: nat)
    requires pos < |s| && IsDigit(s[pos])
    ensures var r := StepAt(s, pos, line);
      r == Step([Token(TokenType.Number, s[pos..r.next], Literal.Number(s[pos..r.next]), line)], r.next, line)
      && NumberShape(s, pos, r.next)
      && (r.next == |s| || !IsDigit(s[r.next]))
      && (AllDigits(s, pos, r.next) ==> !(r.next + 1 < |s| && s[r.next] == '.' && IsDigit(s[r.next + 1])))
  {
    assert Classify(s[pos]) == Digit;
    var r := NumberStep(s, pos, line);
    var intEnd := RunEnd(s, pos + 1, Digits);
    RunInClass(s, pos + 1, Digits);
    if r.next == intEnd {
      assert AllDigits(s, pos, r.next);
    } else {
      RunInClass(s, intEnd + 1, Digits);
      assert AllDigits(s, pos, intEnd);
      assert !AllDigits(s, pos, r.next) by {
        assert !IsDigit(s[intEnd]);
      }
    }
  }

  /** A word is the longest letter-or-digit run; its kind comes from the
      keyword table. */
  lemma {:induction false} IdentifierMunch(s: seq<char>, pos: nat, line: nat)
    requires pos < |s| && IsAlpha(s[pos])
    ensures var r := StepAt(s, pos, line);
      r == Step([Token(KeywordType(s[pos..r.next]), s[pos..r.next], Literal.None, line)], r.next, line)
      && (forall k :: pos <= k < r.next ==> IsAlphanumeric(s[k]))
      && (r.next == |s| || !IsAlphanumeric(s[r.next]))
  {
    assert Classify(s[pos]) == Letter;
    RunInClass(s, pos + 1, Alphanumerics);
  }

  /** Characters that open no lexeme (space, tab, carriage return and any
      other) are passed over without a token. */
  lemma {:induction false} OtherSkipped(s: seq<char>, pos: nat, line: nat)
    requires pos < |s| && s[pos] !in "(){},.-+;*!=<>/\n\"" && !IsDigit(s[pos]) && !IsAlpha(s[pos])
    ensures StepAt(s, pos, line) == Step([], pos + 1, line)
  {
  }

  // ---------------------------------------------------------------------
  // Re-scanning a lexeme
  // ---------------------------------------------------------------------

  /** Scanning `t`'s lexeme on its own consumes all of it and gives back a
      token of the same kind, text and literal. */
  predicate Rescans(t: Token, line: nat) {
    |t.lexeme| > 0
    && var r := StepAt(t.lexeme, 0, line);
       r.next == |t.lexeme| && |r.emitted| == 1
       && r.emitted[0].tokenType == t.tokenType
       && r.emitted[0].lexeme == t.lexeme
       && r.emitted[0].literal == t.literal
  }

  /** Every token one step emits comes back unchanged when its lexeme is
      scanned alone: the scanner reads each lexeme the same way in any
      context. */
  lemma {:induction false} RescanToken(s: seq<char>, pos: nat, line: nat, line': nat)
    requires pos < |s|
    ensures forall t :: t in StepAt(s, pos, line).emitted ==> Rescans(t, line')
  {
    var r := StepAt(s, pos, line);
    if r.emitted != [] {
      var lex := r.emitted[0].lexeme;
      match Classify(s[pos])
      case Single(k) =>
        assert lex == s[pos..pos + 1] && lex[0] == s[pos];
      case OneOrTwoChars(one, two) =>
        assert lex == s[pos..r.next] && lex[0] == s[pos];
        if r.next == pos + 2 {
          assert lex[1] == s[pos + 1];
        }
      case SlashOrComment =>
        assert lex == s[pos..pos + 1] && lex[0] == s[pos];
      case LineBreak =>
      case Quote => RescanString(s, pos, line, line');
      case Digit => RescanNumber(s, pos, line, line');
      case Letter => RescanWord(s, pos, line, line');
      case Skipped =>
    }
  }

  lemma {:induction false} RescanString(s: seq<char>, pos: nat, line: nat, line': nat)
    requires pos < |s| && s[pos] == '"'
    ensures forall t :: t in StringStep(s, pos, line).emitted ==> Rescans(t, line')
  {
    var r := StringStep(s, pos, line);
    if r.emitted != [] {
      var lex := s[pos..r.next];
      RunInClass(s, pos + 1, AllBut('"'));
      assert forall k :: 1 <= k < |lex| - 1 ==> InClass(lex[k], AllBut('"')) by {
        forall k | 1 <= k < |lex| - 1
          ensures InClass(lex[k], AllBut('"'))
        {
          assert lex[k] == s[pos + k];
        }
      }
      RunEndIsMaximal(lex, 1, |lex| - 1, AllBut('"'));
      assert Classify(lex[0]) == Quote;
      assert lex[1..|lex| - 1] == s[pos + 1..r.next - 1];
    }
  }

  lemma {:induction false} RescanNumber(s: seq<char>, pos: nat, line: nat, line': nat)
    requires pos < |s| && IsDigit(s[pos])
    ensures forall t :: t in NumberStep(s, pos, line).emitted ==> Rescans(t, line')
  {
    var e := NumberEnd(s, pos);
    var lex := s[pos..e];
    var intEnd := RunEnd(s, pos + 1, Digits);
    RunInClass(s, pos + 1, Digits);
    assert Classify(lex[0]) == Digit;
    if e == intEnd {
      RunEndIsMaximal(lex, 1, |lex|, Digits) by {
        forall k | 1 <= k < |lex|
          ensures InClass(lex[k], Digits)
        {
          assert lex[k] == s[pos + k];
        }
      }
    } else {
      RunInClass(s, intEnd + 1, Digits);
      var dot := intEnd - pos;
      assert lex[dot] == '.';
      RunEndIsMaximal(lex, 1, dot, Digits) by {
        forall k | 1 <= k < dot
          ensures InClass(lex[k], Digits)
        {
          assert lex[k] == s[pos + k];
        }
      }
      assert IsDigit(lex[dot + 1]);
      RunEndIsMaximal(lex, dot + 1, |lex|, Digits) by {
        forall k | dot + 1 <= k < |lex|
          ensures InClass(lex[k], Digits)
        {
          assert lex[k] == s[pos + k];
        }
      }
    }
    assert NumberEnd(lex, 0) == |lex|;
    assert lex[0..|lex|] == lex;
  }

  lemma {:induction false} RescanWord(s: seq<char>, pos: nat, line: nat, line': nat)
    requires pos < |s| && IsAlpha(s[pos])
    ensures forall t :: t in IdentifierStep(s, pos, line).emitted ==> Rescans(t, line')
  {
    var e := RunEnd(s, pos + 1, Alphanumerics);
    var lex := s[pos..e];
    RunInClass(s, pos + 1, Alphanumerics);
    assert Classify(lex[0]) == Letter;
    RunEndIsMaximal(lex, 1, |lex|, Alphanumerics) by {
      forall k | 1 <= k < |lex|
        ensures InClass(lex[k], Alphanumerics)
      {
        assert lex[k] == s[pos + k];
      }
    }
    assert lex[0..|lex|] == lex;
  }

  // ---------------------------------------------------------------------
  // Keywords
  // ---------------------------------------------------------------------

  const ReservedWords: set<string> := {
    "and", "class", "else", "false", "for", "fun", "if", "nil", "or",
    "print", "return", "super", "this", "true", "var", "while"}

  /** The keyword table spells exactly the reserved words, and maps each to a
      keyword kind. */
  lemma {:induction false} TableSpellsReservedWords()
    ensures forall i :: 0 <= i < |Keywords| ==> Keywords[i].0 in ReservedWords && IsKeyword(Keywords[i].1)
    ensures forall w :: w in ReservedWords ==> exists i :: 0 <= i < |Keywords| && Keywords[i].0 == w
  {
    var spellings := seq(|Keywords|, i requires 0 <= i < |Keywords| => Keywords[i].0);
    assert spellings == ["and", "class", "else", "false", "for", "fun", "if", "nil", "or",
      "print", "return", "super", "this", "true", "var", "while"];
    forall w | w in ReservedWords
      ensures exists i :: 0 <= i < |Keywords| && Keywords[i].0 == w
    {
      assert w in spellings;
      var i :| 0 <= i < |spellings| && spellings[i] == w;
      assert Keywords[i].0 == w;
    }
  }

  /** A word is a keyword exactly when it is one of the sixteen reserved words. */
  lemma {:induction false} KeywordIff(text: string)
    ensures IsKeyword(KeywordType(text)) <==> text in ReservedWords
  {
    TableSpellsReservedWords();
  }

  // ---------------------------------------------------------------------
  // Examples
  // ---------------------------------------------------------------------

  /** No reserved word is longer than six characters. */
  lemma {:induction false} LongWordsAreNames(text: string)
    requires |text| > 6
    ensures KeywordType(text) == TokenType.Identifier
  {
    forall i | 0 <= i < |Keywords|
      ensures |Keywords[i].0| <= 6
    {
    }
  }

  /** A keyword must match in full: `classroom` is a name. */
  lemma {:induction false} ClassroomIsIdentifier()
    ensures KeywordType("classroom") == TokenType.Identifier
  {
    LongWordsAreNames("classroom");
  }

  lemma {:induction false} ClassIsKeyword()
    ensures KeywordType("class") == TokenType.Class
  {
    assert Keywords[0].0 != "class";
    assert Keywords[1..][0] == ("class", TokenType.Class);
  }

  lemma {:induction false} ScanBangEqual()
    ensures Scan("!=") == [Token(TokenType.BangEqual, "!=", Literal.None, 1), EofToken(1)]
  {
    var s := "!=";
    OperatorMunch(s, 0, 1);
    assert s[0..2] == s;
    assert ScanFrom(s, 2, 1) == Scanned([], 1);
    assert ScanFrom(s, 0, 1) == Scanned([Token(TokenType.BangEqual, "!=", Literal.None, 1)], 1);
  }

  /** The last line of `1\n2\n3`, scanned from the second line break. */
  lemma {:induction false} NumberOnLastLine()
    ensures ScanFrom("1\n2\n3", 3, 2) == Scanned([Token(TokenType.Number, "3", Literal.Number("3"), 3)], 3)
  {
    var s := "1\n2\n3";
    assert s[4..5] == "3";
    assert ScanFrom(s, 5, 3) == Scanned([], 3);
    var three := Token(TokenType.Number, "3", Literal.Number("3"), 3);
    assert ScanFrom(s, 4, 3) == Scanned([three], 3) by {
      NumberMunch(s, 4, 3);
    }
    assert Classify(s[3]) == LineBreak;
    assert StepAt(s, 3, 2) == Step([], 4, 3);
  }

  /** The last two lines of `1\n2\n3`, scanned from the first line break. */
  lemma {:induction false} NumbersOnLaterLines()
    ensures ScanFrom("1\n2\n3", 1, 1) == Scanned([
      Token(TokenType.Number, "2", Literal.Number("2"), 2),
      Token(TokenType.Number, "3", Literal.Number("3"), 3)], 3)
  {
    var s := "1\n2\n3";
    var three := Token(TokenType.Number, "3", Literal.Number("3"), 3);
    NumberOnLastLine();
    assert s[2..3] == "2";
    var two := Token(TokenType.Number, "2", Literal.Number("2"), 2);
    assert ScanFrom(s, 2, 2) == Scanned([two, three], 3) by {
      NumberMunch(s, 2, 2);
    }
    assert Classify(s[1]) == LineBreak;
    assert StepAt(s, 1, 1) == Step([], 2, 2);
  }

  /** Each number carries the line it is on. */
  lemma {:induction false} ScanNumbersOnLines()
    ensures Scan("1\n2\n3") == [
      Token(TokenType.Number, "1", Literal.Number("1"), 1),
      Token(TokenType.Number, "2", Literal.Number("2"), 2),
      Token(TokenType.Number, "3", Literal.Number("3"), 3),
      EofToken(3)]
  {
    var s := "1\n2\n3";
    var one := Token(TokenType.Number, "1", Literal.Number("1"), 1);
    assert StepAt(s, 0, 1) == Step([one], 1, 1) by {
      NumberMunch(s, 0, 1);
      assert s[0..1] == "1";
    }
    NumbersOnLaterLines();
    assert ScanFrom(s, 0, 1) == Scanned([one] + ScanFrom(s, 1, 1).tokens, 3);
  }

  /** An unterminated string leaves only the end marker. */
  lemma {:induction false} ScanUnterminatedString()
    ensures Scan("\"abc") == [EofToken(1)]
  {
    StringUnterminated("\"abc", 0, 1);
    assert NewlinesIn("\"abc", 1, 4) == 0;
  }
}
