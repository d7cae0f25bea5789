/** Lexical vocabulary of the Markdown front end: the token kinds and the
    token record that the lexer produces and the parser consumes. */
module Tokens {

  /** Every case of the source's `Token` enumeration, in declaration order.
      `NoToken` is the enumeration's NONE; `Quote`, `Letter`, `Cr` and `Minus`
      are declared but never produced by the lexer. */
  datatype Kind =
    | NoToken | Ln | Ws | Tab | Hash | Asterisk | Underscore
    | LBracket | RBracket | LParen | RParen | Exclamation | Lt | Gt
    | Digit | Dash | Dot | Backtick | Tilde | Pipe | Colon | Semicolon
    | DQuote | Quote | SQuote | Backslash | Slash | At | Ampersand
    | Letter | Degree | Cr | Percent | Text | Plus | Equal | Question
    | Comma | Minus | Caret | Dollar

  /** A token: its kind, its text and how many input characters it stands for. */
  datatype Token = Token(kind: Kind, value: string, count: nat)

  /** Kinds whose adjacent repeats the lexer merges into one token. */
  predicate IsRunnable(k: Kind) {
    k == Ws || k == Tab || k == Hash || k == Asterisk || k == Underscore
    || k == Digit || k == Dash || k == Backtick || k == Text
  }

  /** Runnable kinds that keep one representative character and count repeats. */
  predicate IsSingleCharRun(k: Kind) {
    k == Ws || k == Tab || k == Hash || k == Asterisk || k == Underscore
    || k == Dash || k == Backtick
  }

  /** Runnable kinds that append every repeated character to their value. */
  predicate IsAccumulating(k: Kind) {
    k == Digit || k == Text
  }

  /** Horizontal whitespace, which the parser skips in its look-behind and look-ahead. */
  predicate IsBlank(k: Kind) {
    k == Ws || k == Tab
  }

  /** `s` repeated `n` times (PHP's str_repeat). */
  function Repeat(s: string, n: nat): (r: string)
    ensures |r| == n * |s|
    ensures |s| == 1 ==> forall j :: 0 <= j < |r| ==> r[j] == s[0]
  {
    if n == 0 then [] else Repeat(s, n - 1) + s
  }
}
