/** The scanner and the parser together: what `scan_tokens` hands over is
    always a token list the parser can run on, and the parser may read all
    of it up to the final end marker. */
module FrontEnd {
  import opened Tokens
  import opened Lexer
  import opened LexerProperties
  import opened Parser

  /** The scanned list has an end marker and its first one is the last
      token, so the parser's cursor may reach every scanned token. */
  lemma {:induction false} ScanIsParserInput(s: seq<char>)
    ensures HasEof(Scan(s))
    ensures EofIndex(Scan(s)) == |Scan(s)| - 1
  {
    var ts := Scan(s);
    ScanEndsWithEof(s);
    MarkerAt(ts, |ts| - 1);
  }
}
