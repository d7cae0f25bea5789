/** The lexer: one pass over the code points of the input that classifies each
    character and merges runs of the runnable kinds into the previous token. */
module Lexer {
  import opened Tokens

  /** One position of the lexer's output array. The source leaves an index
      without a token for every '0' (see `Tokenize`); that empty index is `Hole`. */
  datatype Slot = Hole | Tok(token: Token)

  /** The token kind the lexer's switch gives a character other than '0'. */
  function Classify(c: char): Kind {
    if c == '°' then Degree
    else if c == ' ' then Ws
    else if c == '\t' then Tab
    else if c == '\n' || c == '\r' then Ln
    else if c == '#' then Hash
    else if c == '*' then Asterisk
    else if c == '_' then Underscore
    else if c == '[' then LBracket
    else if c == ']' then RBracket
    else if c == '(' then LParen
    else if c == ')' then RParen
    else if c == '<' then Lt
    else if c == '>' then Gt
    else if '0' <= c <= '9' then Digit
    else if c == '-' then Dash
    else if c == '.' then Dot
    else if c == '`' then Backtick
    else if c == '~' then Tilde
    else if c == ':' then Colon
    else if c == ';' then Semicolon
    else if c == '"' then DQuote
    else if c == '\'' then SQuote
    else if c == '\\' then Backslash
    else if c == '/' then Slash
    else if c == '@' then At
    else if c == '&' then Ampersand
    else if c == '$' then Dollar
    else if c == '%' then Percent
    else if c == '^' then Caret
    else if c == '+' then Plus
    else if c == '=' then Equal
    else if c == '?' then Question
    else if c == '!' then Exclamation
    else if c == ',' then Comma
    else if c == '|' then Pipe
    else Text
  }

  /** The input text a token stands for: the representative character times the
      run length for the single-character runs, the value itself otherwise. */
  function Expansion(t: Token): string {
    if IsSingleCharRun(t.kind) then Repeat(t.value, t.count) else t.value
  }

  /** The input text a slot stands for; a hole stands for the '0' it swallowed. */
  function SourceOf(s: Slot): string {
    match s
    case Hole => "0"
    case Tok(t) => Expansion(t)
  }

  /** The concatenated sources of a slot sequence. */
  function Flatten(slots: seq<Slot>): string {
    if slots == [] then [] else Flatten(slots[..|slots| - 1]) + SourceOf(slots[|slots| - 1])
  }

  /** A character the lexer files under `k`; '0' is never filed anywhere. */
  predicate OfKind(c: char, k: Kind) {
    c != '0' && Classify(c) == k
  }

  /** The shape of every token the lexer can emit. */
  predicate WellFormed(t: Token) {
    && t.count >= 1
    && (IsSingleCharRun(t.kind) ==> |t.value| == 1 && OfKind(t.value[0], t.kind))
    && (IsAccumulating(t.kind) ==>
          |t.value| == t.count && forall j :: 0 <= j < |t.value| ==> OfKind(t.value[j], t.kind))
    && (!IsRunnable(t.kind) ==> t.count == 1 && |t.value| == 1 && OfKind(t.value[0], t.kind))
  }

  /** Two slots the lexer would have merged: tokens of one runnable kind. */
  predicate SameRun(a: Slot, b: Slot) {
    a.Tok? && b.Tok? && IsRunnable(a.token.kind) && a.token.kind == b.token.kind
  }

  /** Maximal runs: no two neighbouring slots could have been merged. */
  predicate Coalesced(slots: seq<Slot>) {
    forall j :: 0 < j < |slots| ==> !SameRun(slots[j - 1], slots[j])
  }

  predicate AllWellFormed(slots: seq<Slot>) {
    forall j :: 0 <= j < |slots| ==> slots[j].Tok? ==> WellFormed(slots[j].token)
  }

  /** `slots` is a lexing of `text`: well-formed maximal runs that spell `text` out. */
  predicate LexedFrom(text: string, slots: seq<Slot>) {
    AllWellFormed(slots) && Coalesced(slots) && Flatten(slots) == text
  }

  /** The previous token after the lexer merges one more character into it. */
  function Grow(t: Token, c: char): Token {
    if IsAccumulating(t.kind) then t.(value := t.value + [c], count := t.count + 1)
    else t.(count := t.count + 1)
  }

  /** The lexer (src/tokenize.php `tokenize`). The `'0'` character is caught by
      PHP 8's loose `case 0`: it stores nothing, yet the output index still
      advances, so its slot is a `Hole`. `eol` is cleared after every character,
      so the CR/LF folding branches never fire. */
  method Tokenize(text: string) returns (slots: seq<Slot>)
    ensures LexedFrom(text, slots)
    ensures |slots| <= |text|
  {
    slots := [];
    var eol := false;
    var k := 0;
    while k < |text|
      invariant 0 <= k <= |text|
      invariant !eol
      invariant LexedFrom(text[..k], slots)
      invariant |slots| <= k
    {
      var c := text[k];
      if c == '0' {
        // the token index advances over an index that holds nothing
        HoleStep(text, k, slots);
        slots := slots + [Hole];
      } else if c == '\n' || c == '\r' {
        if eol {
          // unreachable: `eol` is cleared after every character
          assert false;
        }
        eol := true;
        FreshStep(text, k, slots);
        slots := slots + [Tok(Token(Ln, [c], 1))];
      } else {
        var kind := Classify(c);
        var n := |slots|;
        if IsRunnable(kind) && n > 0 && slots[n - 1].Tok? && slots[n - 1].token.kind == kind {
          // merge into the previous token and skip the index advance
          MergeStep(text, k, slots);
          slots := slots[..n - 1] + [Tok(Grow(slots[n - 1].token, c))];
          k := k + 1;
          continue;
        }
        FreshStep(text, k, slots);
        slots := slots + [Tok(Token(kind, [c], 1))];
      }
      eol := false;
      k := k + 1;
    }
    assert text[..k] == text;
  }

  /** A '0' leaves a hole. */
  lemma HoleStep(text: string, k: nat, slots: seq<Slot>)
    requires k < |text| && text[k] == '0' && LexedFrom(text[..k], slots)
    ensures LexedFrom(text[..k + 1], slots + [Hole])
  {
    assert text[..k + 1] == text[..k] + SourceOf(Hole);
    LexSnoc(text[..k], slots, Hole);
  }

  /** Any other character that does not continue the last run starts a token. */
  lemma FreshStep(text: string, k: nat, slots: seq<Slot>)
    requires k < |text| && text[k] != '0' && LexedFrom(text[..k], slots)
    requires var n := |slots|; !(IsRunnable(Classify(text[k])) && n > 0 && slots[n - 1].Tok? && slots[n - 1].token.kind == Classify(text[k]))
    ensures LexedFrom(text[..k + 1], slots + [Tok(Token(Classify(text[k]), [text[k]], 1))])
  {
    var t := Token(Classify(text[k]), [text[k]], 1);
    assert Expansion(t) == [text[k]] by {
      if IsSingleCharRun(t.kind) {
        assert Repeat(t.value, 1) == t.value;
      }
    }
    assert text[..k + 1] == text[..k] + SourceOf(Tok(t));
    LexSnoc(text[..k], slots, Tok(t));
  }

  /** A character of the last token's runnable kind joins that token. */
  lemma MergeStep(text: string, k: nat, slots: seq<Slot>)
    requires k < |text| && text[k] != '0' && LexedFrom(text[..k], slots)
    requires var n := |slots|; IsRunnable(Classify(text[k])) && n > 0 && slots[n - 1].Tok? && slots[n - 1].token.kind == Classify(text[k])
    ensures LexedFrom(text[..k + 1], slots[..|slots| - 1] + [Tok(Grow(slots[|slots| - 1].token, text[k]))])
  {
    assert text[..k + 1] == text[..k] + [text[k]];
    LexMerge(text[..k], slots, text[k]);
  }

  lemma FlattenSnoc(slots: seq<Slot>, s: Slot)
    ensures Flatten(slots + [s]) == Flatten(slots) + SourceOf(s)
  {
    assert (slots + [s])[..|slots|] == slots;
  }

  /** Appending a well-formed slot that does not continue the last run. */
  lemma LexSnoc(text: string, slots: seq<Slot>, s: Slot)
    requires LexedFrom(text, slots)
    requires s.Tok? ==> WellFormed(s.token)
    requires |slots| > 0 ==> !SameRun(slots[|slots| - 1], s)
    ensures LexedFrom(text + SourceOf(s), slots + [s])
  {
    FlattenSnoc(slots, s);
  }

  /** Merging a character of the same runnable kind into the last token. */
  lemma LexMerge(text: string, slots: seq<Slot>, c: char)
    requires LexedFrom(text, slots)
    requires |slots| > 0 && slots[|slots| - 1].Tok?
    requires IsRunnable(slots[|slots| - 1].token.kind) && OfKind(c, slots[|slots| - 1].token.kind)
    ensures LexedFrom(text + [c], slots[..|slots| - 1] + [Tok(Grow(slots[|slots| - 1].token, c))])
  {
    var n := |slots|;
    var last := slots[n - 1].token;
    GrowExpansion(last, c);
    FlattenSnoc(slots[..n - 1], slots[n - 1]);
    assert slots[..n - 1] + [slots[n - 1]] == slots;
    FlattenSnoc(slots[..n - 1], Tok(Grow(last, c)));
    var r := slots[..n - 1] + [Tok(Grow(last, c))];
    forall j | 0 < j < |r| ensures !SameRun(r[j - 1], r[j]) {
      assert SameRun(r[j - 1], r[j]) <==> SameRun(slots[j - 1], slots[j]);
    }
  }

  /** Merging one more character into a well-formed token extends its expansion by it. */
  lemma GrowExpansion(last: Token, c: char)
    requires WellFormed(last) && IsRunnable(last.kind) && OfKind(c, last.kind)
    ensures WellFormed(Grow(last, c)) && Expansion(Grow(last, c)) == Expansion(last) + [c]
  {
    if IsSingleCharRun(last.kind) {
      SingleCharClass(last.value[0], c, last.kind);
    }
  }

  /** Each single-character run kind is made of exactly one character. */
  lemma SingleCharClass(a: char, b: char, k: Kind)
    requires IsSingleCharRun(k) && OfKind(a, k) && OfKind(b, k)
    ensures a == b
  {
  }
}
