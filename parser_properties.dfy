/** What the parser promises, proved about the functions of `Parser`.

    The central statement is `ExpressionSound`: a successful parse returns a
    tree that (1) nests operators by precedence and folds each level to the
    left (`WellNested`) and (2) reads back, in order, as exactly the tokens
    consumed (`Yield` against `Symbols`). */
module ParserProperties {
  import opened Tokens
  import opened Ast
  import opened Parser

  // ---------------------------------------------------------------------
  // Precedence and associativity
  // ---------------------------------------------------------------------

  /** How tightly a binary operator binds (0: not a binary operator). */
  function OpStrength(t: TokenType): nat {
    match t
    case BangEqual => 1
    case EqualEqual => 1
    case Greater => 2
    case GreaterEqual => 2
    case Less => 2
    case LessEqual => 2
    case Minus => 3
    case Plus => 3
    case Slash => 4
    case Star => 4
    case _ => 0
  }

  /** The strength of the operators a level folds. */
  function Strength(l: Level): nat {
    match l
    case Equality => 1
    case Comparison => 2
    case Term => 3
    case Factor => 4
  }

  /** Prefix operators bind tighter than every binary one. */
  const UnaryStrength: nat := 5

  /** `e` can stand where only operators of strength `min` or more may be at
      its top: a binary node's left operand may hold operators as strong as
      its own (left folding), its right operand only strictly stronger ones
      (precedence and left associativity); prefix operators are `!` and `-`;
      no parenthesised group ever appears. */
  predicate WellNested(e: Expr, min: nat) {
    match e
    case Binary(left, op, right) =>
      var k := OpStrength(op.tokenType);
      0 < k && min <= k && WellNested(left, k) && WellNested(right, k + 1)
    case Unary(op, operand) =>
      op.tokenType in [TokenType.Bang, TokenType.Minus] && WellNested(operand, UnaryStrength)
    case Literal(_) => true
    case Grouping(_) => false
  }

  // ---------------------------------------------------------------------
  // Reading a tree back as tokens
  // ---------------------------------------------------------------------

  /** A token as it reappears in a tree: operators as themselves, literal
      tokens as their value. */
  datatype Symbol = Operator(token: Token) | Value(value: Literal)

  predicate IsLiteralKind(t: TokenType) {
    t in [TokenType.False, TokenType.True, TokenType.Nil, TokenType.Number, TokenType.String]
  }

  /** The value `primary` gives a literal token. */
  function LiteralValue(t: Token): Literal {
    match t.tokenType
    case False => Literal.Bool(false)
    case True => Literal.Bool(true)
    case Nil => Literal.Nil
    case _ => t.literal
  }

  function SymbolOf(t: Token): Symbol {
    if IsLiteralKind(t.tokenType) then Value(LiteralValue(t)) else Operator(t)
  }

  function Symbols(ts: seq<Token>, i: nat, j: nat): seq<Symbol>
    requires i <= j <= |ts|
    decreases j - i
  {
    if i == j then [] else Symbols(ts, i, j - 1) + [SymbolOf(ts[j - 1])]
  }

  /** The symbols of a tree, in order. */
  function Yield(e: Expr): seq<Symbol> {
    match e
    case Binary(left, op, right) => Yield(left) + [Operator(op)] + Yield(right)
    case Unary(op, operand) => [Operator(op)] + Yield(operand)
    case Literal(v) => [Value(v)]
    case Grouping(inner) => Yield(inner)
  }

  lemma {:induction false} SymbolsSplit(ts: seq<Token>, i: nat, j: nat, k: nat)
    requires i <= j <= k <= |ts|
    ensures Symbols(ts, i, k) == Symbols(ts, i, j) + Symbols(ts, j, k)
    decreases k - j
  {
    if j < k {
      SymbolsSplit(ts, i, j, k - 1);
    }
  }

  lemma {:induction false} SymbolsOne(ts: seq<Token>, i: nat)
    requires i < |ts|
    ensures Symbols(ts, i, i + 1) == [SymbolOf(ts[i])]
  {
  }

  /** A parse result starting at `pos` is well nested at strength `min` and
      reads back as the tokens from `pos` to its end. */
  predicate Sound(ts: seq<Token>, pos: nat, r: Result<Parsed>, min: nat) {
    r.Ok? ==>
      (pos <= r.value.next <= |ts|
       && WellNested(r.value.expr, min) && Yield(r.value.expr) == Symbols(ts, pos, r.value.next))
  }

  lemma {:induction false} WeakerStrength(e: Expr, min: nat, min': nat)
    requires WellNested(e, min) && min' <= min
    ensures WellNested(e, min')
  {
  }

  // ---------------------------------------------------------------------
  // Soundness of every rule, by mutual induction
  // ---------------------------------------------------------------------

  lemma {:induction false} ExpressionSound(ts: seq<Token>, pos: nat)
    requires InBounds(ts, pos)
    ensures Sound(ts, pos, ParseExpression(ts, pos), 1)
    decreases |ts| - pos, 6, 0
  {
    BinarySound(ts, pos, Equality);
  }

  lemma {:induction false} BinarySound(ts: seq<Token>, pos: nat, l: Level)
    requires InBounds(ts, pos)
    ensures Sound(ts, pos, ParseBinary(ts, pos, l), Strength(l))
    decreases |ts| - pos, Rank(l), 2
  {
    var first := ParseOperand(ts, pos, l);
    OperandSound(ts, pos, l);
    if first.Ok? {
      WeakerStrength(first.value.expr, Strength(l) + 1, Strength(l));
      FoldSound(ts, pos, first.value.next, l, first.value.expr);
    }
  }

  lemma {:induction false} OperandSound(ts: seq<Token>, pos: nat, l: Level)
    requires InBounds(ts, pos)
    ensures Sound(ts, pos, ParseOperand(ts, pos, l), Strength(l) + 1)
    decreases |ts| - pos, Rank(l), 0
  {
    if l == Factor {
      UnarySound(ts, pos);
    } else {
      BinarySound(ts, pos, Tighter(l));
    }
  }

  /** A binary node whose operator is the token at `pos` reads back as the
      tokens from its left operand's start to its right operand's end. */
  lemma {:induction false} JoinReadings(ts: seq<Token>, start: nat, pos: nat, next: nat, left: Expr, right: Expr)
    requires start <= pos < next <= |ts| && OpStrength(ts[pos].tokenType) > 0
    requires Yield(left) == Symbols(ts, start, pos) && Yield(right) == Symbols(ts, pos + 1, next)
    ensures Yield(Binary(left, ts[pos], right)) == Symbols(ts, start, next)
  {
    assert SymbolOf(ts[pos]) == Operator(ts[pos]);
    SymbolsOne(ts, pos);
    SymbolsSplit(ts, start, pos, pos + 1);
    SymbolsSplit(ts, start, pos + 1, next);
    assert Symbols(ts, start, next) == Symbols(ts, start, pos) + [Operator(ts[pos])] + Symbols(ts, pos + 1, next);
  }

  /** The fold keeps a left operand read from `start` to `pos` well nested
      and extends its reading by each operator and operand it takes. */
  lemma {:induction false} FoldSound(ts: seq<Token>, start: nat, pos: nat, l: Level, left: Expr)
    requires InBounds(ts, pos) && start <= pos
    requires WellNested(left, Strength(l)) && Yield(left) == Symbols(ts, start, pos)
    ensures Sound(ts, start, FoldBinary(ts, pos, l, left), Strength(l))
    decreases |ts| - pos, Rank(l), 1
  {
    if Matches(ts, pos, Operators(l)) {
      FoldOperatorSound(ts, start, pos, l, left);
    } else {
      assert FoldBinary(ts, pos, l, left) == Ok(Parsed(left, pos));
    }
  }

  /** One turn of the fold: the operator at `pos` and the operand after it
      join the left operand into a node of the level's strength. */
  lemma {:induction false} FoldOperatorSound(ts: seq<Token>, start: nat, pos: nat, l: Level, left: Expr)
    requires InBounds(ts, pos) && start <= pos && Matches(ts, pos, Operators(l))
    requires WellNested(left, Strength(l)) && Yield(left) == Symbols(ts, start, pos)
    ensures Sound(ts, start, FoldBinary(ts, pos, l, left), Strength(l))
    decreases |ts| - pos, Rank(l), 0
  {
    FoldStep(ts, pos, l, left);
    var right := ParseOperand(ts, pos + 1, l);
    OperandSound(ts, pos + 1, l);
    if right.Ok? {
      var e := Binary(left, ts[pos], right.value.expr);
      LevelStrength(l, ts[pos].tokenType);
      assert WellNested(e, Strength(l));
      JoinReadings(ts, start, pos, right.value.next, left, right.value.expr);
      FoldSound(ts, start, right.value.next, l, e);
    }
  }

  /** A level folds exactly the operators of its strength. */
  lemma {:induction false} LevelStrength(l: Level, t: TokenType)
    ensures t in Operators(l) <==> OpStrength(t) == Strength(l)
  {
  }

  lemma {:induction false} UnarySound(ts: seq<Token>, pos: nat)
    requires InBounds(ts, pos)
    ensures Sound(ts, pos, ParseUnary(ts, pos), UnaryStrength)
    decreases |ts| - pos, 1, 0
  {
    if Matches(ts, pos, [TokenType.Bang, TokenType.Minus]) {
      var operand := ParseUnary(ts, pos + 1);
      UnarySound(ts, pos + 1);
      if operand.Ok? {
        SymbolsSplit(ts, pos, pos + 1, operand.value.next);
        SymbolsOne(ts, pos);
      }
    } else {
      PrimarySound(ts, pos);
    }
  }

  // ---------------------------------------------------------------------
  // Primary
  // ---------------------------------------------------------------------

  /** `primary` on a literal token consumes it and gives its value. */
  lemma {:induction false} PrimaryLiterals(ts: seq<Token>, pos: nat)
    requires InBounds(ts, pos) && IsLiteralKind(ts[pos].tokenType)
    ensures ParsePrimary(ts, pos) == Ok(Parsed(Expr.Literal(LiteralValue(ts[pos])), pos + 1))
  {
  }

  /** `primary` fails on every other token: on `(` through the parenthesis
      rule, on the rest with `NoPrimary`. */
  lemma {:induction false} PrimaryRejects(ts: seq<Token>, pos: nat)
    requires InBounds(ts, pos) && !IsLiteralKind(ts[pos].tokenType)
    ensures ParsePrimary(ts, pos).Err?
    ensures ts[pos].tokenType != TokenType.LeftParen ==> ParsePrimary(ts, pos) == Err(NoPrimary)
  {
  }

  lemma {:induction false} PrimarySound(ts: seq<Token>, pos: nat)
    requires InBounds(ts, pos)
    ensures Sound(ts, pos, ParsePrimary(ts, pos), UnaryStrength)
  {
    if IsLiteralKind(ts[pos].tokenType) {
      PrimaryLiterals(ts, pos);
      SymbolsOne(ts, pos);
    } else {
      PrimaryRejects(ts, pos);
    }
  }

  /** An expression that starts with `(` never parses: the error is the inner
      expression's, or else the failed `consume` of `)`. */
  lemma {:induction false} ParenthesesFail(ts: seq<Token>, pos: nat)
    requires InBounds(ts, pos) && ts[pos].tokenType == TokenType.LeftParen
    ensures pos < EofIndex(ts)
    ensures ParseExpression(ts, pos).Err?
    ensures ParseExpression(ts, pos + 1).Ok? ==>
              ParseExpression(ts, pos) == Err(ConsumeFailed(TokenType.RightParen, ParenMessage))
  {
    var p := ParsePrimary(ts, pos);
    assert Matches(ts, pos, [TokenType.LeftParen]);
    assert p.Err?;
    assert ParseExpression(ts, pos + 1).Ok? ==> p == Err(ConsumeFailed(TokenType.RightParen, ParenMessage));
    assert ParseUnary(ts, pos) == p;
    assert ParseBinary(ts, pos, Factor) == p;
    assert ParseBinary(ts, pos, Term) == p;
    assert ParseBinary(ts, pos, Comparison) == p;
    assert ParseBinary(ts, pos, Equality) == p;
  }

  // ---------------------------------------------------------------------
  // The cursor
  // ---------------------------------------------------------------------

  /** `check` is false at the end marker and, before it, true exactly for
      the kinds asked for. */
  lemma {:induction false} MatchesBeforeEof(ts: seq<Token>, pos: nat, kinds: seq<TokenType>)
    requires InBounds(ts, pos)
    ensures Matches(ts, pos, kinds) ==> pos < EofIndex(ts)
    ensures pos < EofIndex(ts) ==> (Matches(ts, pos, kinds) <==> ts[pos].tokenType in kinds)
  {
  }

  // ---------------------------------------------------------------------
  // What a whole parse gives
  // ---------------------------------------------------------------------

  /** Every kind some binary level folds. */
  predicate IsBinaryOperator(t: TokenType) {
    OpStrength(t) > 0
  }

  /** A literal that no binary operator follows is a whole expression by
      itself; the parser stops after it and leaves whatever comes next
      unread. */
  lemma {:induction false} LiteralAlone(ts: seq<Token>, pos: nat)
    requires InBounds(ts, pos) && IsLiteralKind(ts[pos].tokenType)
    requires !IsBinaryOperator(ts[pos + 1].tokenType)
    ensures ParseExpression(ts, pos) == Ok(Parsed(Expr.Literal(LiteralValue(ts[pos])), pos + 1))
  {
    var p := Parsed(Expr.Literal(LiteralValue(ts[pos])), pos + 1);
    PrimaryLiterals(ts, pos);
    assert ParseUnary(ts, pos) == Ok(p);
    FoldStops(ts, pos + 1, Factor, p.expr);
    assert ParseBinary(ts, pos, Factor) == Ok(p);
    FoldStops(ts, pos + 1, Term, p.expr);
    assert ParseBinary(ts, pos, Term) == Ok(p);
    FoldStops(ts, pos + 1, Comparison, p.expr);
    assert ParseBinary(ts, pos, Comparison) == Ok(p);
    FoldStops(ts, pos + 1, Equality, p.expr);
    assert ParseBinary(ts, pos, Equality) == Ok(p);
  }

  /** The fold of any level stops at a token that is no binary operator. */
  lemma {:induction false} FoldStops(ts: seq<Token>, pos: nat, l: Level, left: Expr)
    requires InBounds(ts, pos) && !IsBinaryOperator(ts[pos].tokenType)
    ensures FoldBinary(ts, pos, l, left) == Ok(Parsed(left, pos))
  {
    if Matches(ts, pos, Operators(l)) {
      LevelStrength(l, ts[pos].tokenType);
    }
  }

  // ---------------------------------------------------------------------
  // Where a parse stops
  // ---------------------------------------------------------------------

  /** A level stops only at a token it does not fold: the next token is
      weaker than any operator of that level. */
  lemma {:induction false} BinaryMaximal(ts: seq<Token>, pos: nat, l: Level)
    requires InBounds(ts, pos)
    ensures var r := ParseBinary(ts, pos, l);
      r.Ok? ==> OpStrength(ts[r.value.next].tokenType) < Strength(l)
    decreases |ts| - pos, Rank(l), 2
  {
    var first := ParseOperand(ts, pos, l);
    OperandMaximal(ts, pos, l);
    if first.Ok? {
      FoldMaximal(ts, first.value.next, l, first.value.expr);
    }
  }

  lemma {:induction false} OperandMaximal(ts: seq<Token>, pos: nat, l: Level)
    requires InBounds(ts, pos)
    ensures var r := ParseOperand(ts, pos, l);
      r.Ok? ==> OpStrength(ts[r.value.next].tokenType) <= Strength(l)
    decreases |ts| - pos, Rank(l), 0
  {
    if l == Factor {
      var r := ParseUnary(ts, pos);
      if r.Ok? {
        StrengthBound(ts[r.value.next].tokenType);
      }
    } else {
      BinaryMaximal(ts, pos, Tighter(l));
    }
  }

  lemma {:induction false} FoldMaximal(ts: seq<Token>, pos: nat, l: Level, left: Expr)
    requires InBounds(ts, pos) && OpStrength(ts[pos].tokenType) <= Strength(l)
    ensures var r := FoldBinary(ts, pos, l, left);
      r.Ok? ==> OpStrength(ts[r.value.next].tokenType) < Strength(l)
    decreases |ts| - pos, Rank(l), 1
  {
    if Matches(ts, pos, Operators(l)) {
      FoldStep(ts, pos, l, left);
      var right := ParseOperand(ts, pos + 1, l);
      OperandMaximal(ts, pos + 1, l);
      if right.Ok? {
        FoldMaximal(ts, right.value.next, l, Binary(left, ts[pos], right.value.expr));
      }
    } else {
      LevelStrength(l, ts[pos].tokenType);
    }
  }

  /** No binary operator is stronger than `*` and `/`. */
  lemma {:induction false} StrengthBound(t: TokenType)
    ensures OpStrength(t) < UnaryStrength
  {
  }

  /** After a successful parse of a level, neither that level nor any
      looser one could take the next token as its operator. */
  lemma {:induction false} BinaryStops(ts: seq<Token>, pos: nat, l: Level)
    requires InBounds(ts, pos)
    ensures var r := ParseBinary(ts, pos, l);
      r.Ok? ==> forall l' :: Strength(l) <= Strength(l') ==> !Matches(ts, r.value.next, Operators(l'))
  {
    var r := ParseBinary(ts, pos, l);
    BinaryMaximal(ts, pos, l);
    if r.Ok? {
      forall l' | Strength(l) <= Strength(l')
        ensures !Matches(ts, r.value.next, Operators(l'))
      {
        LevelStrength(l', ts[r.value.next].tokenType);
      }
    }
  }

  /** A whole expression ends at a token that is no binary operator. */
  lemma {:induction false} ExpressionMaximal(ts: seq<Token>, pos: nat)
    requires InBounds(ts, pos)
    ensures var r := ParseExpression(ts, pos);
      r.Ok? ==> !IsBinaryOperator(ts[r.value.next].tokenType)
  {
    BinaryMaximal(ts, pos, Equality);
  }

  // ---------------------------------------------------------------------
  // Which spans parse
  // ---------------------------------------------------------------------

  predicate IsPrefix(t: TokenType) {
    t == TokenType.Bang || t == TokenType.Minus
  }

  /** `ts[i..j]` is an expression without parentheses: operands made of
      prefix operators and one literal, separated by binary operators. */
  predicate Chain(ts: seq<Token>, i: nat, j: nat)
    requires i <= j <= |ts|
    decreases j - i
  {
    i < j
    && if IsPrefix(ts[i].tokenType) then Chain(ts, i + 1, j)
       else IsLiteralKind(ts[i].tokenType)
            && (i + 1 == j || (i + 2 < j && IsBinaryOperator(ts[i + 1].tokenType) && Chain(ts, i + 2, j)))
  }

  /** Where a parse that folds only operators of strength `min` or more
      stops inside a chain: after the first operand that a weaker operator
      follows, or at the end. */
  function ChainEnd(ts: seq<Token>, i: nat, j: nat, min: nat): (e: nat)
    requires i <= j <= |ts|
    ensures i <= e <= j
    decreases j - i
  {
    if i == j then j
    else if IsPrefix(ts[i].tokenType) then ChainEnd(ts, i + 1, j, min)
    else if i + 1 == j then j
    else if OpStrength(ts[i + 1].tokenType) < min then i + 1
    else ChainEnd(ts, i + 2, j, min)
  }

  /** Inside a chain, the stop is past the first operand, and unless it is
      the chain's end it is a weaker operator followed by the rest of the
      chain. */
  lemma {:induction false} ChainEndFacts(ts: seq<Token>, i: nat, j: nat, min: nat, e: nat)
    requires i <= j <= |ts| && Chain(ts, i, j) && e == ChainEnd(ts, i, j, min)
    ensures i < e
    ensures e < j ==> IsBinaryOperator(ts[e].tokenType) && OpStrength(ts[e].tokenType) < min && Chain(ts, e + 1, j)
    decreases j - i
  {
    if IsPrefix(ts[i].tokenType) {
      assert e == ChainEnd(ts, i + 1, j, min);
      ChainEndFacts(ts, i + 1, j, min, e);
    } else if i + 1 == j {
      assert e == j;
    } else if OpStrength(ts[i + 1].tokenType) < min {
      assert e == i + 1;
      assert Chain(ts, i + 2, j);
    } else {
      assert e == ChainEnd(ts, i + 2, j, min);
      ChainEndFacts(ts, i + 2, j, min, e);
    }
  }

  /** Stopping at strength `min` is stopping at `min + 1`, then going on
      past each operator of strength exactly `min`. */
  lemma {:induction false} ChainEndSplit(ts: seq<Token>, i: nat, j: nat, min: nat)
    requires i <= j <= |ts|
    ensures var e := ChainEnd(ts, i, j, min + 1);
      ChainEnd(ts, i, j, min) ==
        if e == j || OpStrength(ts[e].tokenType) < min then e else ChainEnd(ts, e + 1, j, min)
    decreases j - i
  {
    if i < j && IsPrefix(ts[i].tokenType) {
      ChainEndSplit(ts, i + 1, j, min);
    } else if i + 1 < j && min + 1 <= OpStrength(ts[i + 1].tokenType) {
      ChainEndSplit(ts, i + 2, j, min);
    }
  }

  /** A chain holds no end marker. */
  lemma {:induction false} ChainBeforeEof(ts: seq<Token>, i: nat, j: nat)
    requires InBounds(ts, i) && i <= j <= |ts| && Chain(ts, i, j)
    ensures j <= EofIndex(ts)
    decreases j - i
  {
    assert ts[i].tokenType != TokenType.EOF;
    if IsPrefix(ts[i].tokenType) {
      ChainBeforeEof(ts, i + 1, j);
    } else if i + 1 < j {
      assert ts[i + 1].tokenType != TokenType.EOF;
      ChainBeforeEof(ts, i + 2, j);
    }
  }

  lemma {:induction false} UnaryComplete(ts: seq<Token>, pos: nat, j: nat)
    requires InBounds(ts, pos) && pos <= j <= |ts| && Chain(ts, pos, j)
    ensures var r := ParseUnary(ts, pos);
      r.Ok? && r.value.next == ChainEnd(ts, pos, j, UnaryStrength)
    decreases |ts| - pos, 1, 0
  {
    ChainBeforeEof(ts, pos, j);
    if IsPrefix(ts[pos].tokenType) {
      assert Matches(ts, pos, [TokenType.Bang, TokenType.Minus]);
      UnaryComplete(ts, pos + 1, j);
    } else {
      assert !Matches(ts, pos, [TokenType.Bang, TokenType.Minus]);
      PrimaryLiterals(ts, pos);
      if pos + 1 < j {
        StrengthBound(ts[pos + 1].tokenType);
      }
    }
  }

  /** Every level parses a chain followed by a non-operator, and stops
      where `ChainEnd` says for its strength. */
  lemma {:induction false} BinaryComplete(ts: seq<Token>, pos: nat, j: nat, l: Level)
    requires InBounds(ts, pos) && pos <= j < |ts| && Chain(ts, pos, j)
    requires !IsBinaryOperator(ts[j].tokenType)
    ensures var r := ParseBinary(ts, pos, l);
      r.Ok? && r.value.next == ChainEnd(ts, pos, j, Strength(l))
    decreases |ts| - pos, Rank(l), 2
  {
    var first := ParseOperand(ts, pos, l);
    OperandComplete(ts, pos, j, l);
    var e := first.value.next;
    ChainEndFacts(ts, pos, j, Strength(l) + 1, e);
    BinaryIsFold(ts, pos, l);
    var rest := FoldBinary(ts, e, l, first.value.expr);
    FoldComplete(ts, e, j, l, first.value.expr);
    FoldEnd(ts, pos, j, Strength(l), e, rest.value.next);
  }

  /** `ParseBinary` is its operand followed by the loop. */
  lemma {:induction false} BinaryIsFold(ts: seq<Token>, pos: nat, l: Level)
    requires InBounds(ts, pos)
    ensures var first := ParseOperand(ts, pos, l);
      first.Ok? ==> ParseBinary(ts, pos, l) == FoldBinary(ts, first.value.next, l, first.value.expr)
  {
  }

  lemma {:induction false} OperandComplete(ts: seq<Token>, pos: nat, j: nat, l: Level)
    requires InBounds(ts, pos) && pos <= j < |ts| && Chain(ts, pos, j)
    requires !IsBinaryOperator(ts[j].tokenType)
    ensures var r := ParseOperand(ts, pos, l);
      r.Ok? && r.value.next == ChainEnd(ts, pos, j, Strength(l) + 1)
    decreases |ts| - pos, Rank(l), 0
  {
    if l == Factor {
      UnaryComplete(ts, pos, j);
    } else {
      BinaryComplete(ts, pos, j, Tighter(l));
    }
  }

  /** The loop of a level, at a point of a chain where the next operator
      is no stronger than the level's: it folds every operator of exactly
      its strength and stops at the first weaker one or at the end. */
  lemma {:induction false} FoldComplete(ts: seq<Token>, pos: nat, j: nat, l: Level, left: Expr)
    requires InBounds(ts, pos) && pos <= j < |ts| && !IsBinaryOperator(ts[j].tokenType)
    requires pos < j ==>
      IsBinaryOperator(ts[pos].tokenType) && OpStrength(ts[pos].tokenType) <= Strength(l) && Chain(ts, pos + 1, j)
    ensures var r := FoldBinary(ts, pos, l, left);
      r.Ok? && r.value.next ==
        if pos == j || OpStrength(ts[pos].tokenType) < Strength(l) then pos else ChainEnd(ts, pos + 1, j, Strength(l))
    decreases |ts| - pos, Rank(l), 2
  {
    LevelStrength(l, ts[pos].tokenType);
    if pos < j && OpStrength(ts[pos].tokenType) == Strength(l) {
      var next, folded := FoldAdvance(ts, pos, j, l, left);
      FoldComplete(ts, next, j, l, folded);
      FoldEnd(ts, pos + 1, j, Strength(l), next, FoldBinary(ts, next, l, folded).value.next);
    } else {
      assert !Matches(ts, pos, Operators(l));
    }
  }

  /** Where the loop of a level stops, read off the chain: the end of the
      stronger part, then, if a further operator of the level follows, the
      end of the rest. */
  lemma {:induction false} FoldEnd(ts: seq<Token>, i: nat, j: nat, s: nat, next: nat, stop: nat)
    requires i <= j <= |ts| && next == ChainEnd(ts, i, j, s + 1)
    requires stop == if next == j || OpStrength(ts[next].tokenType) < s then next else ChainEnd(ts, next + 1, j, s)
    ensures stop == ChainEnd(ts, i, j, s)
  {
    ChainEndSplit(ts, i, j, s);
  }

  /** One round of the loop of a level inside a chain: the operand after
      the operator ends where the chain's stronger part ends, and the loop
      goes on from there with the folded node. */
  lemma {:induction false} FoldAdvance(ts: seq<Token>, pos: nat, j: nat, l: Level, left: Expr)
    returns (next: nat, folded: Expr)
    requires InBounds(ts, pos) && pos < j < |ts| && !IsBinaryOperator(ts[j].tokenType)
    requires OpStrength(ts[pos].tokenType) == Strength(l) && Chain(ts, pos + 1, j)
    ensures pos < next <= j && InBounds(ts, next)
    ensures next == ChainEnd(ts, pos + 1, j, Strength(l) + 1)
    ensures next < j ==>
      IsBinaryOperator(ts[next].tokenType) && OpStrength(ts[next].tokenType) <= Strength(l) && Chain(ts, next + 1, j)
    ensures FoldBinary(ts, pos, l, left) == FoldBinary(ts, next, l, folded)
    decreases |ts| - pos, Rank(l), 1
  {
    next := ChainEnd(ts, pos + 1, j, Strength(l) + 1);
    ChainEndFacts(ts, pos + 1, j, Strength(l) + 1, next);
    LevelStrength(l, ts[pos].tokenType);
    folded := FoldOperand(ts, pos, j, l, left);
  }

  /** The parsing half of `FoldAdvance`. */
  lemma {:induction false} FoldOperand(ts: seq<Token>, pos: nat, j: nat, l: Level, left: Expr)
    returns (folded: Expr)
    requires InBounds(ts, pos) && pos < j < |ts| && !IsBinaryOperator(ts[j].tokenType)
    requires Matches(ts, pos, Operators(l)) && Chain(ts, pos + 1, j)
    ensures InBounds(ts, pos + 1)
    ensures var right := ParseOperand(ts, pos + 1, l);
      right.Ok? && right.value.next == ChainEnd(ts, pos + 1, j, Strength(l) + 1)
      && FoldBinary(ts, pos, l, left) == FoldBinary(ts, right.value.next, l, folded)
    decreases |ts| - pos, Rank(l), 0
  {
    FoldStep(ts, pos, l, left);
    OperandComplete(ts, pos + 1, j, l);
    folded := Binary(left, ts[pos], ParseOperand(ts, pos + 1, l).value.expr);
  }

  /** A chain followed by a token that is no binary operator parses as a
      whole expression, and the parser stops exactly at its end. */
  lemma {:induction false} ExpressionComplete(ts: seq<Token>, pos: nat, j: nat)
    requires InBounds(ts, pos) && pos <= j < |ts| && Chain(ts, pos, j)
    requires !IsBinaryOperator(ts[j].tokenType)
    ensures var r := ParseExpression(ts, pos); r.Ok? && r.value.next == j
  {
    BinaryComplete(ts, pos, j, Equality);
    ChainEndFacts(ts, pos, j, Strength(Equality), ChainEnd(ts, pos, j, Strength(Equality)));
  }

  // ---------------------------------------------------------------------
  // Three parses worked out
  // ---------------------------------------------------------------------

  /** A number that no `*` or `/` follows is a whole operand of `term`. */
  lemma {:induction false} NumberFactor(ts: seq<Token>, i: nat)
    requires InBounds(ts, i) && ts[i].tokenType == TokenType.Number
    ensures i + 1 < |ts|
    ensures ParseUnary(ts, i) == Ok(Parsed(Expr.Literal(ts[i].literal), i + 1))
    ensures !(ts[i + 1].tokenType in Operators(Factor)) ==>
      ParseBinary(ts, i, Factor) == Ok(Parsed(Expr.Literal(ts[i].literal), i + 1))
  {
    PrimaryLiterals(ts, i);
  }

  /** `1 - 2 - 3`: a level folds to the left. */
  lemma {:induction false} MinusFoldsLeft(ts: seq<Token>)
    requires |ts| == 6 && ts[5].tokenType == TokenType.EOF
    requires ts[0].tokenType == ts[2].tokenType == ts[4].tokenType == TokenType.Number
    requires ts[1].tokenType == ts[3].tokenType == TokenType.Minus
    ensures HasEof(ts)
    ensures ParseExpression(ts, 0) == Ok(Parsed(
      Binary(Binary(Expr.Literal(ts[0].literal), ts[1], Expr.Literal(ts[2].literal)), ts[3], Expr.Literal(ts[4].literal)), 5))
  {
    MarkerAt(ts, 5);
    assert EofIndex(ts) == 5;
    var one, two, three := Expr.Literal(ts[0].literal), Expr.Literal(ts[2].literal), Expr.Literal(ts[4].literal);
    NumberFactor(ts, 0);
    NumberFactor(ts, 2);
    NumberFactor(ts, 4);
    assert ParseBinary(ts, 0, Factor) == Ok(Parsed(one, 1));
    assert ParseBinary(ts, 2, Factor) == Ok(Parsed(two, 3));
    assert ParseBinary(ts, 4, Factor) == Ok(Parsed(three, 5));
    var inner := Binary(one, ts[1], two);
    var outer := Binary(inner, ts[3], three);
    FoldStops(ts, 5, Term, outer);
    assert FoldBinary(ts, 3, Term, inner) == Ok(Parsed(outer, 5));
    assert FoldBinary(ts, 1, Term, one) == Ok(Parsed(outer, 5));
    assert ParseBinary(ts, 0, Term) == Ok(Parsed(outer, 5));
    FoldStops(ts, 5, Comparison, outer);
    FoldStops(ts, 5, Equality, outer);
    assert ParseBinary(ts, 0, Comparison) == Ok(Parsed(outer, 5));
    assert ParseBinary(ts, 0, Equality) == Ok(Parsed(outer, 5));
  }

  /** `1 + 2 * 3`: the stronger operator takes the operand between them. */
  lemma {:induction false} TimesBindsTighter(ts: seq<Token>)
    requires |ts| == 6 && ts[5].tokenType == TokenType.EOF
    requires ts[0].tokenType == ts[2].tokenType == ts[4].tokenType == TokenType.Number
    requires ts[1].tokenType == TokenType.Plus && ts[3].tokenType == TokenType.Star
    ensures HasEof(ts)
    ensures ParseExpression(ts, 0) == Ok(Parsed(
      Binary(Expr.Literal(ts[0].literal), ts[1], Binary(Expr.Literal(ts[2].literal), ts[3], Expr.Literal(ts[4].literal))), 5))
  {
    MarkerAt(ts, 5);
    assert EofIndex(ts) == 5;
    var one, two, three := Expr.Literal(ts[0].literal), Expr.Literal(ts[2].literal), Expr.Literal(ts[4].literal);
    NumberFactor(ts, 0);
    NumberFactor(ts, 2);
    NumberFactor(ts, 4);
    assert ParseBinary(ts, 0, Factor) == Ok(Parsed(one, 1));
    var product := Binary(two, ts[3], three);
    FoldStops(ts, 5, Factor, product);
    assert FoldBinary(ts, 3, Factor, two) == Ok(Parsed(product, 5));
    assert ParseBinary(ts, 2, Factor) == Ok(Parsed(product, 5));
    var sum := Binary(one, ts[1], product);
    FoldStops(ts, 5, Term, sum);
    assert FoldBinary(ts, 1, Term, one) == Ok(Parsed(sum, 5));
    assert ParseBinary(ts, 0, Term) == Ok(Parsed(sum, 5));
    FoldStops(ts, 5, Comparison, sum);
    FoldStops(ts, 5, Equality, sum);
    assert ParseBinary(ts, 0, Comparison) == Ok(Parsed(sum, 5));
    assert ParseBinary(ts, 0, Equality) == Ok(Parsed(sum, 5));
  }

  /** `!!true`: prefix operators nest to the right. */
  lemma {:induction false} DoubleBang(ts: seq<Token>)
    requires |ts| == 4 && ts[3].tokenType == TokenType.EOF
    requires ts[0].tokenType == ts[1].tokenType == TokenType.Bang && ts[2].tokenType == TokenType.True
    ensures HasEof(ts)
    ensures ParseExpression(ts, 0) == Ok(Parsed(
      Unary(ts[0], Unary(ts[1], Expr.Literal(Literal.Bool(true)))), 3))
  {
    MarkerAt(ts, 3);
    assert EofIndex(ts) == 3;
    var e := Unary(ts[0], Unary(ts[1], Expr.Literal(Literal.Bool(true))));
    PrimaryLiterals(ts, 2);
    assert ParseUnary(ts, 2) == Ok(Parsed(Expr.Literal(Literal.Bool(true)), 3));
    assert ParseUnary(ts, 1) == Ok(Parsed(Unary(ts[1], Expr.Literal(Literal.Bool(true))), 3));
    assert ParseUnary(ts, 0) == Ok(Parsed(e, 3));
    FoldStops(ts, 3, Factor, e);
    FoldStops(ts, 3, Term, e);
    FoldStops(ts, 3, Comparison, e);
    FoldStops(ts, 3, Equality, e);
    assert ParseBinary(ts, 0, Factor) == Ok(Parsed(e, 3));
    assert ParseBinary(ts, 0, Term) == Ok(Parsed(e, 3));
    assert ParseBinary(ts, 0, Comparison) == Ok(Parsed(e, 3));
    assert ParseBinary(ts, 0, Equality) == Ok(Parsed(e, 3));
  }
}
