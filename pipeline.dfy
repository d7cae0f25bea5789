/** The lexer's output fed to the parser: `parse(tokenize(text))`. */
module Pipeline {
  import opened Tokens
  import opened Elements
  import opened OpenTags
  import opened ListLevels
  import opened ParseSpec
  import opened Lexer
  import opened LexerProperties
  import opened ParseProperties
  import FontStyle

  /** A lexing the parser can read: no '0' left an empty index behind. */
  predicate NoHoles(slots: seq<Slot>) {
    forall j :: 0 <= j < |slots| ==> slots[j].Tok?
  }

  function TokensOf(slots: seq<Slot>): seq<Token>
    requires NoHoles(slots)
  {
    seq(|slots|, j requires 0 <= j < |slots| => slots[j].token)
  }

  /** STRONG is out of reach of lexer output: a marker run is one token, so
      the next token never has the marker's kind. */
  lemma LexedMarkersAreEmphasis(text: string, slots: seq<Slot>, j: nat)
    requires LexedFrom(text, slots) && NoHoles(slots) && j < |slots|
    requires slots[j].token.kind == Asterisk || slots[j].token.kind == Underscore
    ensures MarkerTag(TokensOf(slots), slots[j].token, j) == Emphasis
  {
    if j + 1 < |slots| {
      assert !SameRun(slots[j], slots[j + 1]);
    }
  }

  /** A marker, a TEXT token and a marker of the same kind parse to an
      emphasis span around the text. */
  lemma EmphasisSpan(a: Token, t: Token, b: Token)
    requires (a.kind == Asterisk || a.kind == Underscore) && b.kind == a.kind && t.kind == Kind.Text
    ensures ParseTokens([a, t, b]) == Ok(SpanElements(t))
  {
    SpanRun(a, t, b);
    NoCloseNoChange(SpanElements(t), 0, false, [], 0);
  }

  /** The parser's loop over the three tokens, one turn at a time. */
  lemma SpanRun(a: Token, t: Token, b: Token)
    requires (a.kind == Asterisk || a.kind == Underscore) && b.kind == a.kind && t.kind == Kind.Text
    ensures Run([a, t, b], Init) == Ok(SpanElements(t))
  {
    var toks := [a, t, b];
    var d0 := Dispatch(toks, Init);
    SpanOpens(a, t, b);
    RunTurn(toks, Init, d0);
    ResumeNext(toks, d0);
    SpanRest(a, t, b);
  }

  lemma SpanRest(a: Token, t: Token, b: Token)
    requires (a.kind == Asterisk || a.kind == Underscore) && b.kind == a.kind && t.kind == Kind.Text
    ensures Run([a, t, b], AfterOpen(t)) == Ok(SpanElements(t))
  {
    var toks := [a, t, b];
    var d1 := Dispatch(toks, AfterOpen(t));
    SpanText(a, t, b);
    RunTurn(toks, AfterOpen(t), d1);
    ResumeNext(toks, d1);
    var d2 := Dispatch(toks, AfterText(t));
    SpanCloses(a, t, b);
    RunTurn(toks, AfterText(t), d2);
    ResumeNext(toks, d2);
  }

  /** The elements of such a span. */
  function SpanElements(t: Token): seq<Element> {
    [Open(Emphasis), NewElement(Elements.Text, 0, false, t.value), Close(Emphasis)]
  }

  /** The state after the opening marker of such a span. */
  function AfterOpen(t: Token): State {
    State(1, [Open(Emphasis)], SetTagOpen([], Emphasis, 0), false)
  }

  /** The state after its text. */
  function AfterText(t: Token): State {
    State(2, [Open(Emphasis), NewElement(Elements.Text, 0, false, t.value)], SetTagOpen([], Emphasis, 0), false)
  }

  lemma SpanOpens(a: Token, t: Token, b: Token)
    requires (a.kind == Asterisk || a.kind == Underscore) && b.kind == a.kind && t.kind == Kind.Text
    ensures Dispatch([a, t, b], Init) == Continue(AfterOpen(t).(i := 0))
  {
    var toks := [a, t, b];
    MarkerOutcome(toks, Init);
    assert MarkerTag(toks, a, 0) == Emphasis;
  }

  lemma SpanText(a: Token, t: Token, b: Token)
    requires (a.kind == Asterisk || a.kind == Underscore) && b.kind == a.kind && t.kind == Kind.Text
    ensures Dispatch([a, t, b], AfterOpen(t)) == Continue(AfterText(t).(i := 1))
  {
    var toks := [a, t, b];
    var s1 := AfterOpen(t);
    DispatchReaches(toks, s1, 11);
    BranchDecides(toks, t, s1, 11);
  }

  lemma SpanCloses(a: Token, t: Token, b: Token)
    requires (a.kind == Asterisk || a.kind == Underscore) && b.kind == a.kind && t.kind == Kind.Text
    ensures Dispatch([a, t, b], AfterText(t)) == Continue(State(2, SpanElements(t), UnsetAllTagsOpen(SetTagOpen([], Emphasis, 0), Emphasis), false))
  {
    var toks := [a, t, b];
    var s2 := AfterText(t);
    SetTagOpenEffect([], Emphasis, 0);
    MarkerOutcome(toks, s2);
    assert MarkerTag(toks, b, 2) == Emphasis;
  }

  /** The lexing of `**w**` for a word `w` of TEXT characters. */
  function StarredSlots(w: string): seq<Slot> {
    [Tok(Token(Asterisk, "*", 2)), Tok(Token(Kind.Text, w, |w|)), Tok(Token(Asterisk, "*", 2))]
  }

  lemma StarredLexing(w: string, slots: seq<Slot>)
    requires |w| > 0 && forall k :: 0 <= k < |w| ==> OfKind(w[k], Kind.Text)
    requires LexedFrom("**" + w + "**", slots)
    ensures slots == StarredSlots(w)
  {
    var s := StarredSlots(w);
    assert Flatten(s) == "**" + w + "**" by {
      assert Flatten(s[..2]) == "**" + w by {
        assert s[..2][..1] == [s[0]];
        assert Flatten(s[..2][..1]) == "**";
      }
    }
    LexingIsUnique("**" + w + "**", slots, s);
  }

  /** So `**w**`, read by the lexer, is EMPHASIS around `w`, not STRONG. */
  lemma DoubledMarkersEmphasise(w: string, slots: seq<Slot>)
    requires |w| > 0 && forall k :: 0 <= k < |w| ==> OfKind(w[k], Kind.Text)
    requires LexedFrom("**" + w + "**", slots)
    ensures NoHoles(slots)
    ensures ParseTokens(TokensOf(slots)) == Ok([Open(Emphasis), NewElement(Elements.Text, 0, false, w), Close(Emphasis)])
  {
    StarredLexing(w, slots);
    var toks := TokensOf(slots);
    assert toks == [Token(Asterisk, "*", 2), Token(Kind.Text, w, |w|), Token(Asterisk, "*", 2)];
    EmphasisSpan(toks[0], toks[1], toks[2]);
  }

  /** The OOXML writer writes the text of such a span in italic and is back
      to plain after it. */
  lemma EmphasisSpanRendersItalic(t: Token)
    ensures FontStyle.StyleAfter(FontStyle.Plain, SpanElements(t)[..1]) == FontStyle.Italic
    ensures FontStyle.StyleAfter(FontStyle.Plain, SpanElements(t)) == FontStyle.Plain
    ensures FontStyle.Render(SpanElements(t)) == FontStyle.Done([FontStyle.Write(t.value, "md-text-italic")], "md-text")
  {
    var es := SpanElements(t);
    assert es[..1][..0] == [];
    assert es[..2][..1] == es[..1];
    assert es[..|es| - 1] == es[..2];
    var w := FontStyle.Writer(FontStyle.Italic, false, false);
    var wt := FontStyle.Write(t.value, "md-text-italic");
    var none: seq<FontStyle.Write> := [];
    FontStyle.WalkStep(es, 0, FontStyle.Start, none);
    FontStyle.WalkStep(es, 1, w, none + []);
    FontStyle.WalkStep(es, 2, w.(run := true), none + [] + [wt]);
    assert none + [] + [wt] + [] == [wt];
  }
}
