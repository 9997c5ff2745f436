/** The recursive-descent expression parser.

    The functions in the first half are the grammar as a functional parser
    over a token sequence and a cursor position:

      expression -> equality
      equality   -> comparison ( ( "!=" | "==" ) comparison )*
      comparison -> term ( ( ">" | ">=" | "<" | "<=" ) term )*
      term       -> factor ( ( "-" | "+" ) factor )*
      factor     -> unary ( ( "/" | "*" ) unary )*
      unary      -> ( "!" | "-" ) unary | primary
      primary    -> NUMBER | STRING | "true" | "false" | "nil" | "(" expression ")"

    The class `Parser` is the imperative parser with its `current` cursor;
    each of its methods is proved to agree with the matching function. A
    panic of the Rust parser becomes an `Err` result. */
module Parser {
  import opened Tokens
  import opened Ast

  /** Why parsing stopped. */
  datatype ParseError =
    | NoPrimary                                            // no rule of `primary` applies
    | ConsumeFailed(expected: TokenType, message: string)  // `consume` gave up

  datatype Result<T> = Ok(value: T) | Err(error: ParseError)

  /** A parsed expression and the cursor position after it. */
  datatype Parsed = Parsed(expr: Expr, next: nat)

  const ParenMessage: string := "Expect ')' after expression."

  // ---------------------------------------------------------------------
  // Where the parser may look
  // ---------------------------------------------------------------------

  /** Some token is the end marker. */
  predicate HasEof(ts: seq<Token>) {
    |ts| > 0 && (ts[0].tokenType == TokenType.EOF || HasEof(ts[1..]))
  }

  /** The position of the first end-of-input token. */
  function EofIndex(ts: seq<Token>): (k: nat)
    requires HasEof(ts)
    ensures k < |ts| && ts[k].tokenType == TokenType.EOF
    ensures forall i :: 0 <= i < k ==> ts[i].tokenType != TokenType.EOF
  {
    if ts[0].tokenType == TokenType.EOF then 0
    else
      var k := EofIndex(ts[1..]);
      assert forall i :: 1 <= i <= k ==> ts[i] == ts[1..][i - 1];
      k + 1
  }

  /** A list with an end marker anywhere satisfies `HasEof`. */
  lemma {:induction false} MarkerAt(ts: seq<Token>, k: nat)
    requires k < |ts| && ts[k].tokenType == TokenType.EOF
    ensures HasEof(ts)
  {
    if k > 0 {
      assert ts[1..][k - 1] == ts[k];
      MarkerAt(ts[1..], k - 1);
    }
  }

  /** Cursor positions the parser can be at: up to the first end marker. */
  predicate InBounds(ts: seq<Token>, pos: nat) {
    HasEof(ts) && pos <= EofIndex(ts)
  }

  /** `check` for a list of kinds: the token at `pos` is not the end marker
      and has one of the kinds. */
  predicate Matches(ts: seq<Token>, pos: nat, kinds: seq<TokenType>)
    requires pos < |ts|
  {
    ts[pos].tokenType != TokenType.EOF && ts[pos].tokenType in kinds
  }

  // ---------------------------------------------------------------------
  // The grammar as functions
  // ---------------------------------------------------------------------

  /** The four left-associative binary levels, loosest first. */
  datatype Level = Equality | Comparison | Term | Factor

  function Operators(l: Level): seq<TokenType> {
    match l
    case Equality => [TokenType.BangEqual, TokenType.EqualEqual]
    case Comparison => [TokenType.Greater, TokenType.GreaterEqual, TokenType.Less, TokenType.LessEqual]
    case Term => [TokenType.Minus, TokenType.Plus]
    case Factor => [TokenType.Slash, TokenType.Star]
  }

  /** The level one step tighter; below `Factor` comes `unary`. */
  function Tighter(l: Level): Level
    requires l != Factor
  {
    match l
    case Equality => Comparison
    case Comparison => Term
    case Term => Factor
  }

  function Rank(l: Level): nat {
    match l
    case Equality => 5
    case Comparison => 4
    case Term => 3
    case Factor => 2
  }

  function ParseExpression(ts: seq<Token>, pos: nat): (r: Result<Parsed>)
    requires InBounds(ts, pos)
    ensures r.Ok? ==> pos < r.value.next <= EofIndex(ts)
    decreases |ts| - pos, 6, 0
  {
    ParseBinary(ts, pos, Equality)
  }

  /** One binary level: an operand, then the left fold over what follows. */
  function ParseBinary(ts: seq<Token>, pos: nat, l: Level): (r: Result<Parsed>)
    requires InBounds(ts, pos)
    ensures r.Ok? ==> pos < r.value.next <= EofIndex(ts)
    decreases |ts| - pos, Rank(l), 1
  {
    match ParseOperand(ts, pos, l)
    case Err(e) => Err(e)
    case Ok(first) => FoldBinary(ts, first.next, l, first.expr)
  }

  /** An operand of level `l`: the next tighter level. */
  function ParseOperand(ts: seq<Token>, pos: nat, l: Level): (r: Result<Parsed>)
    requires InBounds(ts, pos)
    ensures r.Ok? ==> pos < r.value.next <= EofIndex(ts)
    decreases |ts| - pos, Rank(l), 0
  {
    if l == Factor then ParseUnary(ts, pos) else ParseBinary(ts, pos, Tighter(l))
  }

  /** The loop of a binary level: while the token at `pos` is one of the
      level's operators, consume it and an operand and fold to the left. */
  function FoldBinary(ts: seq<Token>, pos: nat, l: Level, left: Expr): (r: Result<Parsed>)
    requires InBounds(ts, pos)
    ensures r.Ok? ==> pos <= r.value.next <= EofIndex(ts)
    decreases |ts| - pos, Rank(l), 0
  {
    if Matches(ts, pos, Operators(l)) then
      match ParseOperand(ts, pos + 1, l)
      case Err(e) => Err(e)
      case Ok(right) => FoldBinary(ts, right.next, l, Binary(left, ts[pos], right.expr))
    else
      Ok(Parsed(left, pos))
  }

  function ParseUnary(ts: seq<Token>, pos: nat): (r: Result<Parsed>)
    requires InBounds(ts, pos)
    ensures r.Ok? ==> pos < r.value.next <= EofIndex(ts)
    decreases |ts| - pos, 1, 0
  {
    if Matches(ts, pos, [TokenType.Bang, TokenType.Minus]) then
      match ParseUnary(ts, pos + 1)
      case Err(e) => Err(e)
      case Ok(operand) => Ok(Parsed(Unary(ts[pos], operand.expr), operand.next))
    else
      ParsePrimary(ts, pos)
  }

  /** `primary`. A parenthesised expression always fails: `consume` reports
      an error even when the closing parenthesis is there. */
  function ParsePrimary(ts: seq<Token>, pos: nat): (r: Result<Parsed>)
    requires InBounds(ts, pos)
    ensures r.Ok? ==> pos < r.value.next <= EofIndex(ts)
    decreases |ts| - pos, 0, 0
  {
    if Matches(ts, pos, [TokenType.False]) then Ok(Parsed(Expr.Literal(Literal.Bool(false)), pos + 1))
    else if Matches(ts, pos, [TokenType.True]) then Ok(Parsed(Expr.Literal(Literal.Bool(true)), pos + 1))
    else if Matches(ts, pos, [TokenType.Nil]) then Ok(Parsed(Expr.Literal(Literal.Nil), pos + 1))
    else if Matches(ts, pos, [TokenType.Number, TokenType.String]) then Ok(Parsed(Expr.Literal(ts[pos].literal), pos + 1))
    else if Matches(ts, pos, [TokenType.LeftParen]) then
      match ParseExpression(ts, pos + 1)
      case Err(e) => Err(e)
      case Ok(_) => Err(ConsumeFailed(TokenType.RightParen, ParenMessage))
    else
      Err(NoPrimary)
  }

  /** One turn of the fold loop: the operator at `pos` and an operand. */
  lemma {:induction false} FoldStep(ts: seq<Token>, pos: nat, l: Level, left: Expr)
    requires InBounds(ts, pos) && Matches(ts, pos, Operators(l))
    ensures InBounds(ts, pos + 1)
    ensures var operand := ParseOperand(ts, pos + 1, l);
      FoldBinary(ts, pos, l, left) ==
        if operand.Err? then Err(operand.error)
        else FoldBinary(ts, operand.value.next, l, Binary(left, ts[pos], operand.value.expr))
  {
  }

  /** A method result and cursor agree with a functional parse. */
  predicate Agrees(r: Result<Expr>, p: Result<Parsed>, current: nat) {
    match p
    case Ok(parsed) => r == Ok(parsed.expr) && current == parsed.next
    case Err(e) => r == Err(e)
  }

  // ---------------------------------------------------------------------
  // The imperative parser
  // ---------------------------------------------------------------------

  class Parser {
    const tokens: seq<Token>
    var current: nat

    ghost predicate Valid()
      reads this
    {
      InBounds(tokens, current)
    }

    constructor (tokens: seq<Token>)
      ensures this.tokens == tokens && current == 0
      ensures Valid() <==> HasEof(tokens)
    {
      this.tokens := tokens;
      current := 0;
    }

    method Parse() returns (r: Result<Expr>)
      requires Valid()
      modifies this`current
      ensures Valid() && old(current) <= current
      ensures Agrees(r, ParseExpression(tokens, old(current)), current)
    {
      r := Expression();
    }

    method Expression() returns (r: Result<Expr>)
      requires Valid()
      modifies this`current
      ensures Valid() && old(current) <= current
      ensures Agrees(r, ParseExpression(tokens, old(current)), current)
      decreases |tokens| - current, 6
    {
      r := Equality();
    }

    method Equality() returns (r: Result<Expr>)
      requires Valid()
      modifies this`current
      ensures Valid() && old(current) <= current
      ensures Agrees(r, ParseBinary(tokens, old(current), Level.Equality), current)
      decreases |tokens| - current, 5
    {
      var first := Comparison();
      if first.Err? {
        return first;
      }
      var expr := first.value;
      ghost var opPos := current;
      var matched := MatchTokens(Operators(Level.Equality));
      while matched
        invariant Valid() && old(current) <= opPos <= current
        invariant current == if matched then opPos + 1 else opPos
        invariant matched == Matches(tokens, opPos, Operators(Level.Equality))
        invariant ParseBinary(tokens, old(current), Level.Equality) == FoldBinary(tokens, opPos, Level.Equality, expr)
        decreases |tokens| - current
      {
        var operator := Previous();
        var right := Comparison();
        FoldStep(tokens, opPos, Level.Equality, expr);
        assert ParseOperand(tokens, opPos + 1, Level.Equality) == ParseBinary(tokens, opPos + 1, Level.Comparison);
        if right.Err? {
          return right;
        }
        expr := Binary(expr, operator, right.value);
        opPos := current;
        matched := MatchTokens(Operators(Level.Equality));
      }
      return Ok(expr);
    }

    method Comparison() returns (r: Result<Expr>)
      requires Valid()
      modifies this`current
      ensures Valid() && old(current) <= current
      ensures Agrees(r, ParseBinary(tokens, old(current), Level.Comparison), current)
      decreases |tokens| - current, 4
    {
      var first := Term();
      if first.Err? {
        return first;
      }
      var expr := first.value;
      ghost var opPos := current;
      var matched := MatchTokens(Operators(Level.Comparison));
      while matched
        invariant Valid() && old(current) <= opPos <= current
        invariant current == if matched then opPos + 1 else opPos
        invariant matched == Matches(tokens, opPos, Operators(Level.Comparison))
        invariant ParseBinary(tokens, old(current), Level.Comparison) == FoldBinary(tokens, opPos, Level.Comparison, expr)
        decreases |tokens| - current
      {
        var operator := Previous();
        var right := Term();
        FoldStep(tokens, opPos, Level.Comparison, expr);
        assert ParseOperand(tokens, opPos + 1, Level.Comparison) == ParseBinary(tokens, opPos + 1, Level.Term);
        if right.Err? {
          return right;
        }
        expr := Binary(expr, operator, right.value);
        opPos := current;
        matched := MatchTokens(Operators(Level.Comparison));
      }
      return Ok(expr);
    }

    method Term() returns (r: Result<Expr>)
      requires Valid()
      modifies this`current
      ensures Valid() && old(current) <= current
      ensures Agrees(r, ParseBinary(tokens, old(current), Level.Term), current)
      decreases |tokens| - current, 3
    {
      var first := Factor();
      if first.Err? {
        return first;
      }
      var expr := first.value;
      ghost var opPos := current;
      var matched := MatchTokens(Operators(Level.Term));
      while matched
        invariant Valid() && old(current) <= opPos <= current
        invariant current == if matched then opPos + 1 else opPos
        invariant matched == Matches(tokens, opPos, Operators(Level.Term))
        invariant ParseBinary(tokens, old(current), Level.Term) == FoldBinary(tokens, opPos, Level.Term, expr)
        decreases |tokens| - current
      {
        var operator := Previous();
        var right := Factor();
        FoldStep(tokens, opPos, Level.Term, expr);
        assert ParseOperand(tokens, opPos + 1, Level.Term) == ParseBinary(tokens, opPos + 1, Level.Factor);
        if right.Err? {
          return right;
        }
        expr := Binary(expr, operator, right.value);
        opPos := current;
        matched := MatchTokens(Operators(Level.Term));
      }
      return Ok(expr);
    }

    method Factor() returns (r: Result<Expr>)
      requires Valid()
      modifies this`current
      ensures Valid() && old(current) <= current
      ensures Agrees(r, ParseBinary(tokens, old(current), Level.Factor), current)
      decreases |tokens| - current, 2
    {
      var first := Unary();
      if first.Err? {
        return first;
      }
      var expr := first.value;
      ghost var opPos := current;
      var matched := MatchTokens(Operators(Level.Factor));
      while matched
        invariant Valid() && old(current) <= opPos <= current
        invariant current == if matched then opPos + 1 else opPos
        invariant matched == Matches(tokens, opPos, Operators(Level.Factor))
        invariant ParseBinary(tokens, old(current), Level.Factor) == FoldBinary(tokens, opPos, Level.Factor, expr)
        decreases |tokens| - current
      {
        var operator := Previous();
        var right := Unary();
        FoldStep(tokens, opPos, Level.Factor, expr);
        assert ParseOperand(tokens, opPos + 1, Level.Factor) == ParseUnary(tokens, opPos + 1);
        if right.Err? {
          return right;
        }
        expr := Binary(expr, operator, right.value);
        opPos := current;
        matched := MatchTokens(Operators(Level.Factor));
      }
      return Ok(expr);
    }

    method Unary() returns (r: Result<Expr>)
      requires Valid()
      modifies this`current
      ensures Valid() && old(current) <= current
      ensures Agrees(r, ParseUnary(tokens, old(current)), current)
      decreases |tokens| - current, 1
    {
      var matched := MatchTokens([TokenType.Bang, TokenType.Minus]);
      if matched {
        var operator := Previous();
        var right := Unary();
        if right.Err? {
          return right;
        }
        return Ok(Expr.Unary(operator, right.value));
      }
      r := Primary();
    }

    method Primary() returns (r: Result<Expr>)
      requires Valid()
      modifies this`current
      ensures Valid() && old(current) <= current
      ensures Agrees(r, ParsePrimary(tokens, old(current)), current)
      decreases |tokens| - current, 0
    {
      var matched := MatchTokens([TokenType.False]);
      if matched {
        return Ok(Expr.Literal(Literal.Bool(false)));
      }
      matched := MatchTokens([TokenType.True]);
      if matched {
        return Ok(Expr.Literal(Literal.Bool(true)));
      }
      matched := MatchTokens([TokenType.Nil]);
      if matched {
        return Ok(Expr.Literal(Literal.Nil));
      }
      matched := MatchTokens([TokenType.Number, TokenType.String]);
      if matched {
        var token := Previous();
        return Ok(Expr.Literal(token.literal));
      }
      matched := MatchTokens([TokenType.LeftParen]);
      if matched {
        var inner := Expression();
        if inner.Err? {
          return inner;
        }
        var error := Consume(TokenType.RightParen, ParenMessage);
        return Err(error);
      } else {
        return Err(NoPrimary);
      }
    }

    /** Steps over the expected token if it is there, and then fails in
        either case. */
    method Consume(tokenType: TokenType, message: string) returns (error: ParseError)
      requires Valid()
      modifies this`current
      ensures Valid()
      ensures error == ConsumeFailed(tokenType, message)
      ensures current == if old(Check(tokenType)) then old(current) + 1 else old(current)
    {
      if Check(tokenType) {
        var _ := Advance();
      }
      return ConsumeFailed(tokenType, message);
    }

    /** Consumes the current token when its kind is one of `tokenTypes`. */
    method MatchTokens(tokenTypes: seq<TokenType>) returns (matched: bool)
      requires Valid()
      modifies this`current
      ensures Valid()
      ensures matched == Matches(tokens, old(current), tokenTypes)
      ensures current == if matched then old(current) + 1 else old(current)
    {
      for i := 0 to |tokenTypes|
        invariant current == old(current)
        invariant forall j :: 0 <= j < i ==> !Check(tokenTypes[j])
      {
        if Check(tokenTypes[i]) {
          var _ := Advance();
          return true;
        }
      }
      return false;
    }

    function Check(tokenType: TokenType): bool
      reads this
      requires Valid()
    {
      if IsAtEnd() then false else Peek().tokenType == tokenType
    }

    /** Moves past the current token unless it is the end marker, and
        returns the token before the cursor. */
    method Advance() returns (token: Token)
      requires Valid() && (current > 0 || !IsAtEnd())
      modifies this`current
      ensures Valid() && current > 0
      ensures current == if old(IsAtEnd()) then old(current) else old(current) + 1
      ensures token == tokens[current - 1]
    {
      if !IsAtEnd() {
        current := current + 1;
      }
      token := Previous();
    }

    function IsAtEnd(): bool
      reads this
      requires Valid()
    {
      Peek().tokenType == TokenType.EOF
    }

    function Peek(): Token
      reads this
      requires Valid()
    {
      tokens[current]
    }

    function Previous(): Token
      reads this
      requires Valid() && current > 0
    {
      tokens[current - 1]
    }
  }
}
