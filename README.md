# Lox front end: scanner and expression parser

This project models the front end of a small tree-walking Lox interpreter
written in Rust, and proves properties of the model.

- **The scanner** (`Lexer`) makes one left-to-right pass over the source
  text. It keeps two cursors, `start` and `current`, and a line counter.
  Each `scan_token` call reads one lexeme:
  - single characters;
  - `! = < >`, optionally followed by `=`;
  - `/` or a `//` comment;
  - line breaks;
  - string literals;
  - number literals;
  - identifiers and keywords;
  - anything else, which is passed over.

  `scan_tokens` then appends one end-of-input (`EOF`) token.
- **The parser** (`Parser`) is a recursive-descent parser over the token
  list, with a precedence ladder: equality, comparison, term, factor, unary,
  primary. Each binary level is a loop that folds to the left. `unary`
  recurses to the right. `primary` turns literal tokens into `Literal` nodes.

## Modules

- `tokens.dfy`, module `Tokens`: the token kinds, the literal values and the
  token record.
- `expr.dfy`, module `Ast`: the expression tree.
- `lexer.dfy`, module `Lexer`: the scanner in two parts.
  - Functions state what one `scan_token` call produces (`StepAt`) and what
    a whole scan produces (`ScanFrom`, `Scan`).
  - The imperative class `Lexer` has the Rust struct's fields. Each of its
    methods is proved to change them exactly as the functions say.
- `lexer_properties.dfy`, module `LexerProperties`: what the scanner
  promises, as lemmas about those functions:
  - line counting;
  - the trailing end marker;
  - maximal munch;
  - comments, strings, numbers and keywords;
  - re-scanning a token's own lexeme on its own consumes all of it and
    gives a token of the same kind, lexeme and literal (its line can
    differ, since the scan may start on another line).
- `parser.dfy`, module `Parser`: the grammar as functions (`ParseExpression`
  … `ParsePrimary`), and the imperative class `Parser` with its `current`
  cursor. Each method of the class is proved to agree with the matching
  function, both on the result and on the final cursor.
- `parser_properties.dfy`, module `ParserProperties`: soundness of every
  parse.
  - **Precedence and left associativity**: every tree is well nested for
    its operator strengths.
  - **Token order**: reading the tree back in order gives exactly the
    tokens that were consumed.
  - **Where a parse stops**: after a successful parse the next token is
    no operator the level (or any looser one) could take.
  - **Which spans parse**: every parenthesis-free chain of prefix
    operators, literals and binary operators that is followed by a token
    which is no binary operator parses completely, and each level stops
    exactly where `ChainEnd` says.
  - Also: the behaviour of `primary`, the failure of every parenthesised
    expression, the cursor never passing the end marker, and the trees of
    `1 - 2 - 3`, `1 + 2 * 3` and `!!true`.
- `front_end.dfy`, module `FrontEnd`: what the scanner produces is always
  valid parser input.

## Design choices

- **Failures are values.** Parser panics are modelled as an
  `Err(ParseError)` result:
  - `NoPrimary` stands for the panic in `primary`;
  - `ConsumeFailed` stands for the panic in `consume`.
- **The parser's preconditions.** The parser requires a token list that
  contains an end marker, a condition under which the Rust `peek` does
  not panic. `FrontEnd.ScanIsParserInput` proves that `Scan`
  always produces such a list.
- **One `Literal` type.** The parser's five-variant `Literal`
  (`src/literal.rs`) also serves as the scanner's literal type. The scanner
  only ever produces its `String`, `Number` and `None` variants.
- **Numbers.** A number literal keeps its lexeme, not an `f32`.
- **Integers and characters.**
  - Line numbers and cursors are unbounded naturals.
  - The source is a `seq<char>` indexed by character.
  - Character classes are ASCII only.
- **Scanner errors.** The scanner records no errors. An unterminated string
  and an unexpected character leave no trace in the output. The Rust
  `Lexer` has no error list, although `src/lox.rs:55` reads a
  `lexer.errors` field that the struct does not have.
- **`consume`.** `consume` fails even when the expected `)` is there.
  Therefore the model never produces a `Grouping` node, and every
  parenthesised expression ends in `ConsumeFailed`. This looks unintended,
  but the model follows the code.
- **Unused tokens.** `parse` does not need to consume every token. Tokens
  after a complete expression are left unread.

## Model

| member | source | states |
|---|---|---|
| Lexer.RunEnd | src/lexer.rs:146-153 | A scanning loop stops within the input, at or after where it began. |
| Lexer.RunEndIsMaximal | src/lexer.rs:241-252 | A run of class characters that ends at a non-class character or at the end of input is exactly what the loop consumes. |
| Lexer.KeywordType | src/lexer.rs:259-286 | A scanned word is classified either as `Identifier` or as one of the sixteen keyword kinds, never as anything else. |
| Lexer.Lookup | src/lexer.rs:265-283 | The kind found is either `Identifier` or the kind paired with the word in the table. If the word is in the table, its own entry is the one used. |
| Lexer.Classify | src/lexer.rs:113-167 | Only `\n` is handled as a line break. No character produces an end-of-input, string or number token through the fixed-token arms. |
| Lexer.NumberEnd | src/lexer.rs:241-252 | A number lexeme ends past its first digit, within the input, at a character that is not a digit or at the end. |
| Lexer.OneOrTwo | src/lexer.rs:126-144 | Two characters are consumed iff the next one exists and is `=`, and then the two-character kind is emitted; otherwise one character and the one-character kind. The lexeme is the consumed slice and the line is unchanged. |
| Lexer.SlashStep | src/lexer.rs:146-153 | Nothing is emitted iff a second `/` follows; then the step stops at a line break or the end of input. Otherwise exactly one `Slash` token over one character. |
| Lexer.StringStep | src/lexer.rs:223-239 | Without a closing `"` nothing is emitted and the rest of the input is consumed. Otherwise one `String` token whose lexeme runs through the closing quote and whose literal is the text between the quotes, on the line where the string ends. |
| Lexer.NumberStep | src/lexer.rs:241-257 | Exactly one `Number` token, on the current line, whose lexeme and literal are the consumed slice, which is followed by no digit. |
| Lexer.IdentifierStep | src/lexer.rs:259-286 | Exactly one token, on the current line, whose lexeme is the consumed slice, which no alphanumeric character follows; its kind is the keyword table's answer for that slice. |
| Lexer.StepAt | src/lexer.rs:113-167 | One `scan_token` call consumes at least one character, stays within the input and emits at most one token. |
| Lexer.ScanFrom | src/lexer.rs:98-107 | Scanning the rest of the input never moves the line counter down. |
| Lexer.Lexer.constructor | src/lexer.rs:88-96 | A new scanner has no tokens, both cursors at 0 and the line counter at 1. |
| Lexer.Lexer.ScanTokens | src/lexer.rs:98-107 | The tokens become the old tokens, then every token scanned from the cursor to the end, then an end marker on the final line counter. The cursor ends at the end of the source and the line counter at the scan's final line. The same list is returned. |
| Lexer.Lexer.ScanToken | src/lexer.rs:113-167 | The tokens, cursor and line counter change exactly as one step `StepAt` from the old cursor and line says. |
| Lexer.Lexer.AdvanceWhile | src/lexer.rs:148-150 | The cursor moves to the end of the longest run of class characters starting at it. |
| Lexer.Lexer.Advance | src/lexer.rs:169-177 | Returns the character at the cursor and moves the cursor one place on. |
| Lexer.Lexer.AddToken | src/lexer.rs:179-181 | Appends a token with no literal, whose text is `source[start..current]`, on the current line. |
| Lexer.Lexer.MatchNext | src/lexer.rs:183-201 | Returns true iff the next character exists and is the expected one. Only in that case does the cursor move on by one. |
| Lexer.Lexer.ScanString | src/lexer.rs:223-239 | The tokens, cursor and line counter change exactly as the string step says: one token for a terminated string, nothing for an unterminated one. |
| Lexer.Lexer.SkipStringBody | src/lexer.rs:224-229 | The cursor reaches the first `"` or the end of input. The line counter grows by the number of line breaks passed. |
| Lexer.Lexer.ScanNumber | src/lexer.rs:241-257 | The tokens and cursor change exactly as the number step says. |
| Lexer.Lexer.ScanIdentifier | src/lexer.rs:259-286 | The tokens and cursor change exactly as the word step says. |
| Lexer.Lexer.AddTokenWithLiteral | src/lexer.rs:288-309 | Appends one token on the current line. An end-of-input token gets an empty lexeme; any other token gets `source[start..current]`. |
| LexerProperties.StepLines | src/lexer.rs:155 | After one step, the line counter has grown by exactly the number of line breaks in the consumed characters. |
| LexerProperties.OneOrTwoLines | src/lexer.rs:126-144 | A one- or two-character operator leaves the line counter unchanged. |
| LexerProperties.SlashLines | src/lexer.rs:146-153 | A `/` or a comment leaves the line counter unchanged, since a comment stops before the line break. |
| LexerProperties.StringLines | src/lexer.rs:223-229 | A string moves the line counter by exactly the line breaks inside it. |
| LexerProperties.NumberHasNoNewlines | src/lexer.rs:241-252 | Past its first character, the span a number step consumes holds no line break. |
| LexerProperties.ScanFromLines | src/lexer.rs:98-107 | The final line counter is the starting line plus the number of line breaks in the rest of the input. |
| LexerProperties.ScanFromTokens | src/lexer.rs:98-107 | No scanned token is an end marker. Every token's line lies between the starting and the final line counter, and lines never go down along the list. |
| LexerProperties.ScanEndsWithEof | src/lexer.rs:98-107 | The whole scan ends with exactly one end marker, which comes last, has an empty lexeme and no literal, and sits on line 1 plus the number of line breaks. Token lines never go down. |
| LexerProperties.MarkerAppended | src/lexer.rs:104-106 | Appending the end marker to marker-free tokens with ascending lines, none past its line, gives a list ending in that single marker. |
| LexerProperties.StepFacts | src/lexer.rs:179-181 | A token emitted by one step has text exactly equal to the consumed slice, the step's final line, and a kind other than end-of-input. It carries a literal iff it is a string or a number. |
| LexerProperties.EmittedToken | src/lexer.rs:288-309 | A token appended by `add_token_with_literal` for a scanned kind satisfies the per-step token facts. |
| LexerProperties.RescanToken | src/lexer.rs:113-167 | Scanning a token's own lexeme from its start consumes all of it and emits one token of the same kind, lexeme and literal. |
| LexerProperties.RescanString | src/lexer.rs:223-239 | The same for a string token. |
| LexerProperties.RescanNumber | src/lexer.rs:241-257 | The same for a number token. |
| LexerProperties.RescanWord | src/lexer.rs:259-286 | The same for an identifier or keyword token. |
| LexerProperties.WordKinds | src/lexer.rs:265-283 | Keyword classification never yields an end-of-input, string or number kind. |
| LexerProperties.OperatorMunch | src/lexer.rs:126-144 | `!`, `=`, `<` and `>` followed by `=` give one two-character token (`!=`, `==`, `<=`, `>=`). Otherwise, including at end of input, they give the one-character token. |
| LexerProperties.CommentSkipped | src/lexer.rs:146-150 | `//` emits nothing. It consumes up to, not including, the next line break or the end of input, and leaves the line counter unchanged. |
| LexerProperties.LoneSlash | src/lexer.rs:151-153 | A `/` not followed by `/` emits exactly one `Slash` token. |
| LexerProperties.StringTerminated | src/lexer.rs:223-239 | A string closed by the next `"` gives one `String` token: its lexeme includes the quotes and its literal is exactly the text between them. The line counter passes the line breaks inside. |
| LexerProperties.StringUnterminated | src/lexer.rs:223-233 | A string with no closing `"` emits nothing and consumes the rest of the input, counting its line breaks. The rest of the scan emits no token at all. |
| LexerProperties.NumberMunch | src/lexer.rs:241-257 | A number is the longest digit run, then `.` and more digits only when a digit follows the `.`. Its literal is its own lexeme. |
| LexerProperties.IdentifierMunch | src/lexer.rs:259-286 | A word is the longest alphanumeric run, classified by the keyword table, with no literal. |
| LexerProperties.OtherSkipped | src/lexer.rs:113-167 | Any other character, including space, tab, `\r` and `_`, is passed over without a token or a line change. |
| LexerProperties.TableSpellsReservedWords | src/lexer.rs:265-283 | The keyword table holds exactly the sixteen reserved words, each mapped to a keyword kind. |
| LexerProperties.KeywordIff | src/lexer.rs:265-283 | A word is classified as a keyword iff it is exactly one of the sixteen reserved words. |
| LexerProperties.LongWordsAreNames | src/lexer.rs:265-283 | Words longer than six characters are always identifiers. |
| LexerProperties.ClassroomIsIdentifier | src/lexer.rs:265-283 | `classroom` is an identifier. A keyword must match the whole word, not a prefix. |
| LexerProperties.ClassIsKeyword | src/lexer.rs:267 | `class` is the `Class` keyword. |
| LexerProperties.ScanBangEqual | src/lexer.rs:126-129 | Scanning `!=` gives one `BangEqual` token and the end marker. |
| LexerProperties.ScanNumbersOnLines | src/lexer.rs:155 | Scanning `1\n2\n3` gives three number tokens on lines 1, 2 and 3, and the end marker on line 3. |
| LexerProperties.ScanUnterminatedString | src/lexer.rs:230-233 | Scanning `"abc` gives only the end marker. |
| Parser.EofIndex | src/parser.rs:187-193 | The index of the first end-of-input token: it is that kind, and no earlier token is. |
| Parser.MarkerAt | src/parser.rs:191-193 | A list with an end marker anywhere is a list `peek` can always answer on. |
| Parser.ParseExpression | src/parser.rs:21-23 | A successful parse consumes at least one token and stops at or before the end marker. |
| Parser.ParseBinary | src/parser.rs:25-92 | The same for each binary level. |
| Parser.ParseOperand | src/parser.rs:26 | A successful operand of a level consumes at least one token and stops at or before the end marker. |
| Parser.FoldBinary | src/parser.rs:28-36 | The left fold of a level never moves the cursor back or past the end marker. |
| Parser.ParseUnary | src/parser.rs:94-104 | A successful `unary` consumes at least one token and stops at or before the end marker. |
| Parser.ParsePrimary | src/parser.rs:106-151 | A successful `primary` consumes a token and stops at or before the end marker. |
| Parser.Parser.constructor | src/parser.rs:13-15 | A new parser holds the tokens with the cursor at 0. It is in a valid state iff the tokens contain an end marker. |
| Parser.Parser.Parse | src/parser.rs:17-19 | Returns what `ParseExpression` gives from the old cursor, and leaves the cursor where that parse stops. The cursor never goes back and never passes the end marker. |
| Parser.Parser.Expression | src/parser.rs:21-23 | As for `Parse`. |
| Parser.Parser.Equality | src/parser.rs:25-39 | The result and the new cursor agree with `ParseBinary` at the equality level. |
| Parser.Parser.Comparison | src/parser.rs:41-60 | The result and the new cursor agree with `ParseBinary` at the comparison level. |
| Parser.Parser.Term | src/parser.rs:62-76 | The result and the new cursor agree with `ParseBinary` at the term level. |
| Parser.Parser.Factor | src/parser.rs:78-92 | The result and the new cursor agree with `ParseBinary` at the factor level. |
| Parser.Parser.Unary | src/parser.rs:94-104 | The result and the new cursor agree with `ParseUnary`. |
| Parser.Parser.Primary | src/parser.rs:106-151 | The result and the new cursor agree with `ParsePrimary`. |
| Parser.Parser.Consume | src/parser.rs:153-159 | Steps over the expected token when `check` holds, and fails with the given kind and message in every case. |
| Parser.Parser.MatchTokens | src/parser.rs:161-170 | Returns true iff the current token is not the end marker and its kind is in the list. Only then does the cursor move on by one. |
| Parser.Parser.Advance | src/parser.rs:179-185 | Moves the cursor by one unless it is at the end marker, and returns the token just before the cursor. |
| ParserProperties.ExpressionSound | src/parser.rs:21-23 | A successful parse is well nested (each operator binds by its precedence, and levels fold to the left). Its in-order reading is exactly the consumed tokens. |
| ParserProperties.BinarySound | src/parser.rs:25-92 | Each binary level yields a tree whose top operators are of that level or tighter, and whose reading is the consumed tokens. |
| ParserProperties.OperandSound | src/parser.rs:26 | The operand of a level holds only operators strictly tighter than the level's own. |
| ParserProperties.FoldSound | src/parser.rs:28-36 | Folding keeps the tree well nested at the level's strength. The reading covers everything from the first operand to where the loop stops. |
| ParserProperties.FoldOperatorSound | src/parser.rs:28-36 | The same when the loop does see one of the level's operators. |
| ParserProperties.JoinReadings | src/parser.rs:31-35 | A `Binary` node over adjacent token spans reads as the left span, the operator, then the right span. |
| ParserProperties.LevelStrength | src/parser.rs:28 | A token kind is one of a level's operators iff its strength is that level's: `* /` over `+ -` over `> >= < <=` over `!= ==`. |
| ParserProperties.WeakerStrength | src/parser.rs:25-92 | A tree that may stand in a tight position may also stand in a looser one. |
| ParserProperties.SymbolsSplit | src/parser.rs:28-36 | The reading of a token span is the reading of its two halves joined. |
| ParserProperties.UnarySound | src/parser.rs:94-104 | `unary` nests prefix `!` and `-` to the right, over a primary, and reads back as the consumed tokens. |
| ParserProperties.PrimaryLiterals | src/parser.rs:107-137 | `false`, `true` and `nil` become the matching literal values. Number and string tokens become their own literal. One token is consumed. |
| ParserProperties.PrimaryRejects | src/parser.rs:139-150 | Any other token makes `primary` fail. Every token except `(` fails with `NoPrimary`. |
| ParserProperties.PrimarySound | src/parser.rs:106-151 | A successful `primary` is one literal read from one token. |
| ParserProperties.ParenthesesFail | src/parser.rs:139-159 | An expression starting with `(` always fails. When the inner expression parses, the error is the `consume` failure for `)`. |
| ParserProperties.MatchesBeforeEof | src/parser.rs:172-177 | `check` is false at the end marker, so a match happens only before it. Before it, a match happens iff the kind is in the list. |
| ParserProperties.LiteralAlone | src/parser.rs:17-23 | A literal token not followed by a binary operator parses as just that literal and consumes one token. Anything after it is left unread. |
| ParserProperties.FoldStops | src/parser.rs:28 | A level's loop ends at once, consuming nothing, at a token that is not a binary operator. |
| ParserProperties.BinaryMaximal | src/parser.rs:25-92 | After a successful parse of a level, the next token's operator strength is below the level's own. |
| ParserProperties.OperandMaximal | src/parser.rs:26 | After a successful operand, the next token is no stronger than the level's operators. |
| ParserProperties.FoldMaximal | src/parser.rs:28-36 | A level's loop, started at a token no stronger than its operators, stops at a token weaker than them. |
| ParserProperties.StrengthBound | src/parser.rs:94-104 | In the strength table used by these proofs, every binary operator's strength lies below the prefix strength given to unary operands. |
| ParserProperties.BinaryStops | src/parser.rs:25-92 | After a successful parse of a level, neither that level nor any looser level matches the next token. |
| ParserProperties.ExpressionMaximal | src/parser.rs:21-23 | After a successful parse, the next token is not a binary operator. |
| ParserProperties.ChainEnd | src/parser.rs:25-104 | Where a level that folds operators of a given strength or more stops inside a chain lies within the chain. |
| ParserProperties.ChainEndFacts | src/parser.rs:25-104 | Inside a chain the stop lies past the first operand and, unless it is the chain's end, is a weaker operator followed by the rest of the chain. |
| ParserProperties.ChainEndSplit | src/parser.rs:28-36 | Stopping at one strength is stopping at the next stronger one, then going on past each operator of exactly that strength. |
| ParserProperties.FoldEnd | src/parser.rs:28-36 | The stop of a level inside a chain is the end of its stronger part, or the stop of the rest after a further operator of the level. |
| ParserProperties.ChainBeforeEof | src/parser.rs:187-193 | A chain holds no end marker. |
| ParserProperties.UnaryComplete | src/parser.rs:94-104 | `unary` succeeds on every chain and stops after the first operand. |
| ParserProperties.BinaryComplete | src/parser.rs:25-92 | Each level succeeds on every chain followed by a non-operator and stops where `ChainEnd` says for its strength. |
| ParserProperties.OperandComplete | src/parser.rs:26 | The operand of a level succeeds on such a chain and stops where the stronger operators end. |
| ParserProperties.FoldComplete | src/parser.rs:28-36 | Inside a chain a level's loop folds every operator of exactly its strength and stops at the first weaker one or at the chain's end. |
| ParserProperties.FoldAdvance | src/parser.rs:28-36 | One turn of the loop inside a chain: the operand ends where the chain's stronger part ends, and the loop goes on from there with the folded node. |
| ParserProperties.FoldOperand | src/parser.rs:29-35 | The operand after a level's operator inside a chain succeeds and ends where the stronger part ends. |
| ParserProperties.ExpressionComplete | src/parser.rs:21-23 | A chain followed by a non-operator parses as a whole expression and the parse stops exactly at the chain's end. |
| ParserProperties.NumberFactor | src/parser.rs:78-92 | A number that no `*` or `/` follows is a whole operand of `term`. |
| ParserProperties.MinusFoldsLeft | src/parser.rs:62-76 | `1 - 2 - 3` parses as `(1 - 2) - 3` and stops at the end marker. |
| ParserProperties.TimesBindsTighter | src/parser.rs:62-92 | `1 + 2 * 3` parses as `1 + (2 * 3)` and stops at the end marker. |
| ParserProperties.DoubleBang | src/parser.rs:94-104 | `!!true` parses as `!(!true)` and stops at the end marker. |
| FrontEnd.ScanIsParserInput | src/lexer.rs:98-107 | The scanned list contains an end marker, and its first end marker is the last token, so the parser can read every scanned token. |

## Left out

- The `f32` conversion of a number's text (`src/lexer.rs:255`) is floating-point parsing. The literal keeps the lexeme instead.
- Unicode: the Rust character tests `is_alphabetic`, `is_alphanumeric` and `is_digit`, and the mismatch between byte indexing (`len`, slicing) and character indexing (`chars().nth`) (`src/lexer.rs:110`, `170-174`, `237`, `299`). The model assumes ASCII text indexed by character.
- Lexer.Lexer.ScanTokens: line numbers are unbounded naturals. The `u32` counter could in principle wrap, but that would need more than four billion line breaks.
- The `Display` impls for tokens (`src/lexer.rs:26-34`, `src/token.rs:14-22`) only format text.
- `Rc` sharing inside expression trees. The model uses an ordinary recursive datatype.
- The panic message text. A parse failure keeps only its kind, plus the expected token and message in `ConsumeFailed`. The text of the `primary` panic is not kept.
- `Lexer.Lexer.Peek`, `Lexer.Lexer.PeekNext`, `Lexer.Lexer.IsAtEnd`, `Parser.Parser.Check`, `Parser.Parser.IsAtEnd`, `Parser.Parser.Peek` and `Parser.Parser.Previous` are modelled as reading functions with no contract of their own. What they return is stated through the contracts of the methods that use them.
- Parser.Parser.Advance requires the cursor not to be at position 0 on an end marker, because `previous` would then panic on an underflowing index.
- `src/lox.rs` (file reading, the prompt loop and exit codes), `src/main.rs`, `src/lib.rs`, `src/interpreter.rs` and `src/error.rs` are not part of this model. They are input, output and printing, with no scanning or parsing logic.
