/** Properties of the parser (src/parse.php `parse`) stated over the pure
    model in `ParseSpec`. */
module ParseProperties {
  import opened Tokens
  import opened Elements
  import opened OpenTags
  import opened Scan
  import opened ParseSpec

  // ---------------------------------------------------------------------------
  // The open-tag set holds at most one entry per tag on every step.

  predicate WellOpen(st: State) {
    AtMostOnePerTag(st.openTags)
  }

  lemma MarkKeeps(st: State, t: Tag, d: int)
    requires WellOpen(st)
    ensures WellOpen(Mark(st, t, d))
    ensures forall u :: Opened(Mark(st, t, d), u) <==> Opened(st, u) || u == t
  {
    SetTagOpenEffect(st.openTags, t, d);
  }

  lemma UnmarkKeeps(st: State, t: Tag)
    requires WellOpen(st)
    ensures WellOpen(Unmark(st, t))
    ensures forall u :: Opened(Unmark(st, t), u) <==> Opened(st, u) && u != t
  {
    UnsetAllTagsOpenEffect(st.openTags, t);
  }

  lemma CloseIfOpenKeeps(st: State, t: Tag)
    requires WellOpen(st)
    ensures WellOpen(CloseIfOpen(st, t))
  {
    if Opened(st, t) {
      UnmarkKeeps(Emit(st, Close(t)), t);
    }
  }

  lemma BulletItemKeeps(toks: seq<Token>, st: State)
    requires InRange(toks, st) && WellOpen(st)
    ensures WellOpen(BulletItem(toks, st))
  {
    var ws := LeadingWidth(toks, st.i);
    var s1 := if !Opened(st, UL) then Opening(st, NewElement(UL, ws, false, ""), UL, ws) else st;
    if !Opened(st, UL) {
      MarkKeeps(Emit(st, NewElement(UL, ws, false, "")), UL, ws);
    }
    MarkKeeps(Emit(s1, NewElement(LI, ws, false, "")), LI, 0);
  }

  lemma NumberedItemKeeps(toks: seq<Token>, st: State)
    requires InRange(toks, st) && WellOpen(st)
    ensures WellOpen(NumberedItem(toks, st))
  {
    var s1 := CloseIfOpen(st, LI);
    CloseIfOpenKeeps(st, LI);
    var s2 := if !Opened(s1, OL) then Opening(s1, Open(OL), OL, 0) else s1;
    if !Opened(s1, OL) {
      MarkKeeps(Emit(s1, Open(OL)), OL, 0);
    }
    MarkKeeps(Emit(s2, NewElement(LI, LeadingWidth(toks, st.i), false, "")), LI, 0);
  }

  lemma TableStartKeeps(st: State)
    requires WellOpen(st)
    ensures WellOpen(Opening(Opening(Opening(st, Open(Table), Table, 0), Open(TableRow), TableRow, 0), Open(TableCell), TableCell, 0))
  {
    var s1 := Opening(st, Open(Table), Table, 0);
    var s2 := Opening(s1, Open(TableRow), TableRow, 0);
    MarkKeeps(Emit(st, Open(Table)), Table, 0);
    MarkKeeps(Emit(s1, Open(TableRow)), TableRow, 0);
    MarkKeeps(Emit(s2, Open(TableCell)), TableCell, 0);
  }

  lemma TableCellKeeps(toks: seq<Token>, st: State)
    requires InRange(toks, st) && WellOpen(st)
    ensures var s1 := CloseIfOpen(st, TableCell);
            WellOpen(s1) && WellOpen(Opening(s1, Open(TableCell), TableCell, 0))
  {
    var s1 := CloseIfOpen(st, TableCell);
    CloseIfOpenKeeps(st, TableCell);
    MarkKeeps(Emit(s1, Open(TableCell)), TableCell, 0);
  }

  lemma EmphasisToggleKeeps(toks: seq<Token>, st: State, t: Tag, before: Kind)
    requires InRange(toks, st) && WellOpen(st)
    ensures var r := EmphasisToggle(toks, st, t, before); !r.Crash? ==> WellOpen(r.st)
  {
    if Opened(st, t) && !IsBlank(before) {
      UnmarkKeeps(Emit(st, Close(t)), t);
    } else {
      MarkKeeps(Emit(st, Open(t)), t, 0);
    }
  }

  lemma PreOpenKeeps(st: State)
    requires WellOpen(st)
    ensures WellOpen(PreOpen(st))
  {
    if |st.result| > 0 && st.result[|st.result| - 1].tag == Pre {
      MarkKeeps(ReplaceLast(st, Open(LineBreak)), Pre, 0);
    } else {
      MarkKeeps(Emit(st, Open(Pre)), Pre, 0);
    }
  }

  lemma CloseBlockKeeps(st: State)
    requires WellOpen(st)
    ensures WellOpen(CloseBlock(st))
  {
    forall e: Element, t: Tag ensures WellOpen(Unmark(Emit(st, e), t)) {
      UnmarkKeeps(Emit(st, e), t);
    }
  }

  lemma TableEndKeeps(st: State)
    requires WellOpen(st)
    ensures WellOpen(TableEnd(st))
  {
    forall e: Element, t: Tag ensures WellOpen(Unmark(Emit(st, e), t)) {
      UnmarkKeeps(Emit(st, e), t);
    }
  }

  lemma TableContinueKeeps(st: State)
    requires WellOpen(st)
    ensures WellOpen(TableContinue(st))
  {
    DropDelimitedKeeps(st);
    var s0 := DropDelimited(st);
    CloseRowKeeps(s0);
    var s3 := CloseRow(s0);
    var s4 := Opening(s3, Open(TableRow), TableRow, 0);
    MarkKeeps(Emit(s3, Open(TableRow)), TableRow, 0);
    MarkKeeps(Emit(s4, Open(TableCell)), TableCell, 0);
  }

  lemma DropDelimitedKeeps(st: State)
    requires WellOpen(st)
    ensures WellOpen(DropDelimited(st))
  {
    if DelimiterRow(st.result, |st.result| - 1) != -1 {
      var es := PopThroughRow(st.result);
      UnmarkKeeps(st.(result := Promote(es, |es| - 1)), TableRow);
    }
  }

  lemma CloseRowKeeps(st: State)
    requires WellOpen(st)
    ensures WellOpen(CloseRow(st))
  {
    var s1 := if Opened(st, TableCell) then Emit(st, Close(TableCell)) else st;
    var s2 := if Opened(s1, TableRow) then Emit(s1, Close(TableRow)) else s1;
    CloseIfOpenKeeps(s2, TableHeader);
  }

  lemma LineEndKeeps(toks: seq<Token>, st: State)
    requires InRange(toks, st) && WellOpen(st)
    ensures WellOpen(LineEnd(toks, st))
  {
    if BlockOpen(st) {
      CloseBlockKeeps(st);
    } else if Opened(st, Table) {
      if NextNonBlankKind(toks, st.i) != Pipe {
        TableEndKeeps(st);
      } else {
        TableContinueKeeps(st);
      }
    }
  }

  lemma LinksKeeps(toks: seq<Token>, tok: Token, st: State)
    requires InRange(toks, st) && WellOpen(st)
    ensures var r := LinksRule(toks, tok, st); !r.Crash? ==> WellOpen(r.st)
  {
    forall e: Element, t: Tag ensures WellOpen(Unmark(Emit(st, e), t)) && WellOpen(Mark(Emit(st, e), t, 0)) {
      UnmarkKeeps(Emit(st, e), t);
      MarkKeeps(Emit(st, e), t, 0);
    }
  }

  lemma StrikeKeeps(toks: seq<Token>, tok: Token, st: State)
    requires InRange(toks, st) && WellOpen(st)
    ensures var r := StrikeRule(toks, tok, st); !r.Crash? ==> WellOpen(r.st)
  {
    UnmarkKeeps(Emit(st, Close(Strikethrough)), Strikethrough);
    MarkKeeps(Emit(st, Open(Strikethrough)), Strikethrough, 0);
  }

  lemma DashListKeeps(toks: seq<Token>, tok: Token, st: State)
    requires InRange(toks, st) && WellOpen(st)
    ensures var r := DashListRule(toks, tok, st); !r.Crash? ==> WellOpen(r.st)
  {
    if tok.kind == Dash && Bol(toks, st.i) { BulletItemKeeps(toks, st); }
  }

  lemma DigitListKeeps(toks: seq<Token>, tok: Token, st: State)
    requires InRange(toks, st) && WellOpen(st)
    ensures var r := DigitListRule(toks, tok, st); !r.Crash? ==> WellOpen(r.st)
  {
    if tok.kind == Digit && Bol(toks, st.i) && st.i + 1 < |toks| { NumberedItemKeeps(toks, st); }
  }

  lemma HeaderKeeps(toks: seq<Token>, tok: Token, st: State)
    requires InRange(toks, st) && WellOpen(st)
    ensures var r := HeaderRule(toks, tok, st); !r.Crash? ==> WellOpen(r.st)
  {
    MarkKeeps(Emit(st, NewElement(Header, tok.count, false, "")), Header, tok.count);
  }

  lemma StrongMarkerStep(toks: seq<Token>, tok: Token, st: State)
    requires InRange(toks, st) && MarkerTag(toks, tok, st.i) == Strong
    ensures InRange(toks, st.(i := st.i + 1))
    ensures EmphasisMarker(toks, tok, st) == EmphasisToggle(toks, st.(i := st.i + 1), Strong, BeforeKind(toks, st.i))
  {
    var before := BeforeKind(toks, st.i);
    var next := st.(i := st.i + 1);
    assert InRange(toks, next);
    assert EmphasisMarker(toks, tok, st) == EmphasisToggle(toks, next, Strong, before);
  }

  lemma StrongMarkerKeeps(toks: seq<Token>, tok: Token, st: State)
    requires InRange(toks, st) && WellOpen(st) && MarkerTag(toks, tok, st.i) == Strong
    ensures var r := EmphasisMarker(toks, tok, st); !r.Crash? ==> WellOpen(r.st)
  {
    StrongMarkerStep(toks, tok, st);
    EmphasisToggleKeeps(toks, st.(i := st.i + 1), Strong, BeforeKind(toks, st.i));
  }

  lemma PlainMarkerKeeps(toks: seq<Token>, tok: Token, st: State)
    requires InRange(toks, st) && WellOpen(st) && MarkerTag(toks, tok, st.i) == Emphasis
    ensures var r := EmphasisMarker(toks, tok, st); !r.Crash? ==> WellOpen(r.st)
  {
    EmphasisToggleKeeps(toks, st, Emphasis, BeforeKind(toks, st.i));
  }

  lemma EmphasisKeeps(toks: seq<Token>, tok: Token, st: State)
    requires InRange(toks, st) && WellOpen(st)
    ensures var r := EmphasisRule(toks, tok, st); !r.Crash? ==> WellOpen(r.st)
  {
    if !Opened(st, Pre) && (tok.kind == Asterisk || tok.kind == Underscore) {
      if MarkerTag(toks, tok, st.i) == Strong {
        StrongMarkerKeeps(toks, tok, st);
      } else {
        PlainMarkerKeeps(toks, tok, st);
      }
    }
  }

  lemma QuoteKeeps(toks: seq<Token>, tok: Token, st: State)
    requires InRange(toks, st) && WellOpen(st)
    ensures var r := QuoteRule(toks, tok, st); !r.Crash? ==> WellOpen(r.st)
  {
    if |st.result| > 0 {
      MarkKeeps(ReplaceLast(st, Open(LineBreak)), Tag.Quote, 0);
    }
    MarkKeeps(Emit(st, Open(Tag.Quote)), Tag.Quote, 0);
  }

  lemma PreKeeps(toks: seq<Token>, tok: Token, st: State)
    requires InRange(toks, st) && WellOpen(st)
    ensures var r := PreRule(toks, tok, st); !r.Crash? ==> WellOpen(r.st)
  {
    PreOpenKeeps(st);
  }

  lemma LineEndRuleKeeps(toks: seq<Token>, tok: Token, st: State)
    requires InRange(toks, st) && WellOpen(st)
    ensures var r := LineEndRule(toks, tok, st); !r.Crash? ==> WellOpen(r.st)
  {
    if tok.kind == Ln { LineEndKeeps(toks, st); }
  }

  lemma BranchKeeps(k: nat, toks: seq<Token>, tok: Token, st: State)
    requires k < BranchCount && InRange(toks, st) && WellOpen(st)
    ensures var r := Branch(k, toks, tok, st); !r.Crash? ==> WellOpen(r.st)
  {
    if k == 0 {
      DashListKeeps(toks, tok, st);
    } else if k == 1 {
      DigitListKeeps(toks, tok, st);
    } else if k == 2 {
      TableStartKeeps(st);
    } else if k == 3 {
      TableCellKeeps(toks, st);
    } else if k == 4 {
      HeaderKeeps(toks, tok, st);
    } else if k == 5 {
      EmphasisKeeps(toks, tok, st);
    } else if k == 6 {
      QuoteKeeps(toks, tok, st);
    } else if k == 7 {
      PreKeeps(toks, tok, st);
    } else if k == 8 {
      LineEndRuleKeeps(toks, tok, st);
    } else if k == 9 {
      LinksKeeps(toks, tok, st);
    } else if k == 10 {
      StrikeKeeps(toks, tok, st);
    }
  }

  lemma {:induction false} TryBranchKeeps(toks: seq<Token>, tok: Token, st: State, k: nat)
    requires k < BranchCount && InRange(toks, st) && WellOpen(st)
    ensures var r := TryBranch(toks, tok, st, k); !r.Crash? ==> WellOpen(r.st)
    decreases BranchCount - k
  {
    BranchKeeps(k, toks, tok, st);
    if k == BranchCount - 1 || !Branch(k, toks, tok, st).FallThrough? {
      BranchDecides(toks, tok, st, k);
    } else {
      BranchFallsThrough(toks, tok, st, k);
      TryBranchKeeps(toks, tok, Branch(k, toks, tok, st).st, k + 1);
    }
  }

  /** No turn of the loop ever opens a tag twice. */
  lemma DispatchKeepsOneEntryPerTag(toks: seq<Token>, st: State)
    requires InRange(toks, st) && WellOpen(st)
    ensures var r := Dispatch(toks, st); !r.Crash? ==> WellOpen(r.st)
  {
    assert Dispatch(toks, st) == TryBranch(toks, toks[st.i], st, 0);
    TryBranchKeeps(toks, toks[st.i], st, 0);
  }

  /** The states `Run` is called on from `st`: one per turn of the loop, and
      the last one either past the tokens or the one whose turn threw. */
  function Turns(toks: seq<Token>, st: State): (r: seq<State>)
    requires 0 <= st.i
    ensures |r| > 0 && r[0] == st
    decreases |toks| - st.i
  {
    if st.i >= |toks| then [st]
    else
      var step := Dispatch(toks, st);
      if step.Crash? then [st] else [st] + Turns(toks, step.st.(i := step.st.i + 1))
  }

  /** `Run` ends on the last of these states: with its elements when the
      tokens ran out, with an error when its turn threw. */
  lemma {:induction false} RunEndsOnLastTurn(toks: seq<Token>, st: State)
    requires 0 <= st.i
    ensures var l := Turns(toks, st)[|Turns(toks, st)| - 1];
            (l.i >= |toks| ==> Run(toks, st) == Ok(l.result)) && (l.i < |toks| ==> Run(toks, st).Err?)
    decreases |toks| - st.i
  {
    if st.i < |toks| {
      var step := Dispatch(toks, st);
      RunTurn(toks, st, step);
      if !step.Crash? {
        var next := step.st.(i := step.st.i + 1);
        assert Run(toks, st) == Run(toks, next);
        RunEndsOnLastTurn(toks, next);
        var ts := Turns(toks, next);
        assert Turns(toks, st) == [st] + ts;
        assert Turns(toks, st)[|Turns(toks, st)| - 1] == ts[|ts| - 1];
      } else {
        assert Turns(toks, st) == [st];
      }
    }
  }

  /** Over a whole run of the loop, every state it goes through holds at most
      one entry per tag. */
  lemma {:induction false} RunKeepsOneEntryPerTag(toks: seq<Token>, st: State)
    requires 0 <= st.i && WellOpen(st)
    ensures forall k :: 0 <= k < |Turns(toks, st)| ==> WellOpen(Turns(toks, st)[k])
    decreases |toks| - st.i
  {
    if st.i < |toks| {
      var step := Dispatch(toks, st);
      if !step.Crash? {
        DispatchKeepsOneEntryPerTag(toks, st);
        var next := step.st.(i := step.st.i + 1);
        RunKeepsOneEntryPerTag(toks, next);
        assert Turns(toks, st) == [st] + Turns(toks, next);
      }
    }
  }

  /** `parse`'s loop starts with nothing open, so no state of it ever holds a
      tag twice. */
  lemma ParseKeepsOneEntryPerTag(toks: seq<Token>)
    ensures forall k :: 0 <= k < |Turns(toks, Init)| ==> WellOpen(Turns(toks, Init)[k])
  {
    RunKeepsOneEntryPerTag(toks, Init);
  }

  // ---------------------------------------------------------------------------
  // Which branch decides: a token passes every branch that does not test for
  // its kind.

  lemma {:induction false} SkipBranches(toks: seq<Token>, tok: Token, st: State, lo: nat, hi: nat)
    requires lo <= hi < BranchCount && InRange(toks, st)
    requires forall k :: lo <= k < hi ==> Branch(k, toks, tok, st) == FallThrough(st)
    ensures TryBranch(toks, tok, st, lo) == TryBranch(toks, tok, st, hi)
    decreases hi - lo
  {
    if lo < hi {
      BranchFallsThrough(toks, tok, st, lo);
      SkipBranches(toks, tok, st, lo + 1, hi);
    }
  }

  /** Whether branch `k` tests for tokens of kind `kind`; TEXT takes them all. */
  predicate Tests(k: nat, kind: Kind) {
    if k == 0 || k == 10 then kind == Dash
    else if k == 1 then kind == Digit
    else if k == 2 || k == 3 then kind == Pipe
    else if k == 4 then kind == Hash
    else if k == 5 then kind == Asterisk || kind == Underscore
    else if k == 6 then kind == Gt
    else if k == 7 then kind == Ws
    else if k == 8 then kind == Ln
    else if k == 9 then kind == LBracket || kind == RBracket || kind == LParen || kind == RParen
    else true
  }

  /** A branch lets every token of another kind through, untouched. */
  lemma Passes(k: nat, toks: seq<Token>, tok: Token, st: State)
    requires k < BranchCount && InRange(toks, st) && !Tests(k, tok.kind)
    ensures Branch(k, toks, tok, st) == FallThrough(st)
  {
    if k == 0 {
    } else if k == 1 {
    } else if k == 2 {
    } else if k == 3 {
    } else if k == 4 {
    } else if k == 5 {
    } else if k == 6 {
    } else if k == 7 {
    } else if k == 8 {
    } else if k == 9 {
    } else {
    }
  }

  /** The token at the cursor goes straight to the first branch `k` that
      tests for its kind. */
  lemma DispatchReaches(toks: seq<Token>, st: State, k: nat)
    requires InRange(toks, st) && k < BranchCount
    requires forall j :: 0 <= j < k ==> !Tests(j, toks[st.i].kind)
    ensures Dispatch(toks, st) == TryBranch(toks, toks[st.i], st, k)
  {
    var tok := toks[st.i];
    assert Dispatch(toks, st) == TryBranch(toks, tok, st, 0);
    forall j | 0 <= j < k ensures Branch(j, toks, tok, st) == FallThrough(st) {
      Passes(j, toks, tok, st);
    }
    SkipBranches(toks, tok, st, 0, k);
  }

  /** A line break token always reaches the line-end branch. */
  lemma DispatchOnLineEnd(toks: seq<Token>, st: State)
    requires InRange(toks, st) && toks[st.i].kind == Ln
    ensures Dispatch(toks, st) == Continue(LineEnd(toks, st))
  {
    DispatchReaches(toks, st, 8);
    BranchDecides(toks, toks[st.i], st, 8);
  }

  /** An asterisk or underscore is decided by the emphasis branch, or else
      becomes TEXT in the state that branch left. */
  lemma DispatchOnMarker(toks: seq<Token>, st: State)
    requires InRange(toks, st) && (toks[st.i].kind == Asterisk || toks[st.i].kind == Underscore)
    ensures var tok := toks[st.i];
            var e := EmphasisRule(toks, tok, st);
            Dispatch(toks, st) == if e.FallThrough? then TextRule(toks, tok, e.st) else e
  {
    var tok := toks[st.i];
    var e := EmphasisRule(toks, tok, st);
    DispatchReaches(toks, st, 5);
    if e.FallThrough? {
      BranchFallsThrough(toks, tok, st, 5);
      var s := e.st;
      forall k | 6 <= k < 11 ensures Branch(k, toks, tok, s) == FallThrough(s) {
        Passes(k, toks, tok, s);
      }
      SkipBranches(toks, tok, s, 6, 11);
      BranchDecides(toks, tok, s, 11);
    } else {
      BranchDecides(toks, tok, st, 5);
    }
  }

  /** A `>` at the beginning of a line is decided by the quote branch. */
  lemma DispatchOnQuoteMarker(toks: seq<Token>, st: State)
    requires InRange(toks, st) && toks[st.i].kind == Gt && Bol(toks, st.i)
    ensures Dispatch(toks, st) == QuoteRule(toks, toks[st.i], st)
  {
    DispatchReaches(toks, st, 6);
    BranchDecides(toks, toks[st.i], st, 6);
  }

  /** Four or more spaces at the beginning of a line with no list open are
      decided by the PRE branch. */
  lemma DispatchOnIndent(toks: seq<Token>, st: State)
    requires InRange(toks, st) && toks[st.i].kind == Ws && toks[st.i].count >= 4 && Bol(toks, st.i)
    requires !Opened(st, UL) && !Opened(st, OL)
    ensures Dispatch(toks, st) == PreRule(toks, toks[st.i], st)
  {
    DispatchReaches(toks, st, 7);
    BranchDecides(toks, toks[st.i], st, 7);
  }

  // ---------------------------------------------------------------------------
  // Emphasis markers: close, open, or TEXT of the marker run.

  /** The TEXT an unmatched marker run becomes: its character `count` times. */
  function MarkerText(tok: Token): Element {
    NewElement(Elements.Text, 0, false, Repeat(tok.value, tok.count))
  }

  lemma MarkerTextValue(tok: Token)
    requires tok.kind == Asterisk || tok.kind == Underscore
    ensures NewElement(Elements.Text, 0, false, TextValue(tok)) == MarkerText(tok)
    ensures |tok.value| == 1 ==> |MarkerText(tok).value| == tok.count
  {
  }

  /** What `Dispatch` does with a marker, once the tag `t` is read and the
      cursor sits at `j`. */
  predicate MarkerEffect(toks: seq<Token>, st: State, tok: Token, t: Tag, j: int, r: Step)
    requires InRange(toks, st) && st.i <= j
  {
    var closes := Opened(st, t) && !IsBlank(BeforeKind(toks, st.i));
    var opens := j + 1 < |toks| && !IsBlank(toks[j + 1].kind);
    r.Continue? && r.st.i == j && r.st.expectUrl == st.expectUrl
    && (closes ==> r.st.result == st.result + [Close(t)] && r.st.openTags == UnsetAllTagsOpen(st.openTags, t))
    && (!closes && opens ==> r.st.result == st.result + [Open(t)] && r.st.openTags == SetTagOpen(st.openTags, t, 0))
    && (!closes && !opens ==> r.st.result == st.result + [MarkerText(tok)] && r.st.openTags == st.openTags)
  }

  lemma ToggleEffect(toks: seq<Token>, st: State, j: int, tok: Token, t: Tag)
    requires tok.kind == Asterisk || tok.kind == Underscore
    requires InRange(toks, st) && st.i <= j < |toks|
    requires !(LastTag(st.result) == LI && IsEmptyValue(tok.value))
    ensures var e := EmphasisToggle(toks, st.(i := j), t, BeforeKind(toks, st.i));
            MarkerEffect(toks, st, tok, t, j, if e.FallThrough? then TextRule(toks, tok, e.st) else e)
  {
    var s0 := st.(i := j);
    var before := BeforeKind(toks, st.i);
    if Opened(st, t) && !IsBlank(before) {
      CloseToggle(toks, st, j, tok, t);
    } else if j + 1 < |toks| && !IsBlank(toks[j + 1].kind) {
      OpenToggle(toks, st, j, tok, t);
    } else {
      TextToggle(toks, st, j, tok, t);
      MarkerAsText(toks, tok, s0);
    }
  }

  lemma CloseToggle(toks: seq<Token>, st: State, j: int, tok: Token, t: Tag)
    requires InRange(toks, st) && st.i <= j < |toks|
    requires Opened(st, t) && !IsBlank(BeforeKind(toks, st.i))
    ensures var e := EmphasisToggle(toks, st.(i := j), t, BeforeKind(toks, st.i));
            MarkerEffect(toks, st, tok, t, j, e)
  {
    var s0 := st.(i := j);
    assert EmphasisToggle(toks, s0, t, BeforeKind(toks, st.i)) == Continue(Closing(s0, Close(t), t));
  }

  lemma OpenToggle(toks: seq<Token>, st: State, j: int, tok: Token, t: Tag)
    requires InRange(toks, st) && st.i <= j < |toks|
    requires !(Opened(st, t) && !IsBlank(BeforeKind(toks, st.i)))
    requires j + 1 < |toks| && !IsBlank(toks[j + 1].kind)
    ensures var e := EmphasisToggle(toks, st.(i := j), t, BeforeKind(toks, st.i));
            MarkerEffect(toks, st, tok, t, j, e)
  {
    var s0 := st.(i := j);
    assert EmphasisToggle(toks, s0, t, BeforeKind(toks, st.i)) == Continue(Opening(s0, Open(t), t, 0));
  }

  lemma TextToggle(toks: seq<Token>, st: State, j: int, tok: Token, t: Tag)
    requires tok.kind == Asterisk || tok.kind == Underscore
    requires InRange(toks, st) && st.i <= j < |toks|
    requires !(Opened(st, t) && !IsBlank(BeforeKind(toks, st.i)))
    requires !(j + 1 < |toks| && !IsBlank(toks[j + 1].kind))
    ensures EmphasisToggle(toks, st.(i := j), t, BeforeKind(toks, st.i)) == FallThrough(st.(i := j))
    ensures MarkerEffect(toks, st, tok, t, j, Continue(Emit(st.(i := j), MarkerText(tok))))
  {
  }

  lemma MarkerAsText(toks: seq<Token>, tok: Token, st: State)
    requires tok.kind == Asterisk || tok.kind == Underscore
    requires InRange(toks, st) && !(LastTag(st.result) == LI && IsEmptyValue(tok.value))
    ensures TextRule(toks, tok, st) == Continue(Emit(st, MarkerText(tok)))
  {
    MarkerTextValue(tok);
  }

  /** Outside PRE an asterisk or underscore closes its tag when that tag is
      open and no blank precedes it; otherwise it opens the tag when a
      non-blank token follows; otherwise it becomes TEXT of its run. */
  lemma MarkerOutcome(toks: seq<Token>, st: State)
    requires InRange(toks, st) && !Opened(st, Pre)
    requires toks[st.i].kind == Asterisk || toks[st.i].kind == Underscore
    requires !(LastTag(st.result) == LI && IsEmptyValue(toks[st.i].value))
    ensures var tok := toks[st.i];
            var t := MarkerTag(toks, tok, st.i);
            MarkerEffect(toks, st, tok, t, if t == Strong then st.i + 1 else st.i, Dispatch(toks, st))
  {
    var tok := toks[st.i];
    DispatchOnMarker(toks, st);
    assert EmphasisRule(toks, tok, st) == EmphasisMarker(toks, tok, st);
    if MarkerTag(toks, tok, st.i) == Strong {
      StrongMarkerStep(toks, tok, st);
      ToggleEffect(toks, st, st.i + 1, tok, Strong);
    } else {
      assert st.(i := st.i) == st;
      ToggleEffect(toks, st, st.i, tok, Emphasis);
    }
  }

  /** Inside PRE a marker is TEXT of its run. */
  lemma MarkerInPre(toks: seq<Token>, st: State)
    requires InRange(toks, st) && Opened(st, Pre)
    requires toks[st.i].kind == Asterisk || toks[st.i].kind == Underscore
    requires !(LastTag(st.result) == LI && IsEmptyValue(toks[st.i].value))
    ensures Dispatch(toks, st) == Continue(Emit(st, MarkerText(toks[st.i])))
  {
    DispatchOnMarker(toks, st);
    MarkerTextValue(toks[st.i]);
  }

  // ---------------------------------------------------------------------------
  // Line ends: the first open tag in a fixed order is closed, one per line end.

  /** The order in which a line end tries the block tags. */
  const BlockOrder: seq<Tag> := [Header, Pre, Tag.Quote, LI, UL, OL]

  /** The order in which a line end that ends a table closes its parts. */
  const TableOrder: seq<Tag> := [TableCell, TableRow, TableHeader, Table]

  /** The position in `order` of its first tag open in `st` (`|order|` if none). */
  function FirstOpen(st: State, order: seq<Tag>): (k: nat)
    ensures k <= |order|
    ensures k < |order| ==> Opened(st, order[k])
    ensures forall j :: 0 <= j < k ==> !Opened(st, order[j])
  {
    if order == [] then 0
    else if Opened(st, order[0]) then 0
    else 1 + FirstOpen(st, order[1..])
  }

  /** The closing element a line end writes for block tag `t`: a header
      closes with the level stored in its open entry, and an OL close is
      built from an empty element, so it is not marked as a block. */
  function BlockCloser(st: State, t: Tag): Element {
    if t == Header then NewElement(Header, HeaderData(st.openTags), true, "")
    else if t == OL then Element(OL, 0, true, "", false)
    else Close(t)
  }

  lemma {:induction false} FirstOpenFinds(st: State, order: seq<Tag>, j: nat)
    requires j < |order| && Opened(st, order[j])
    ensures FirstOpen(st, order) <= j
    decreases j
  {
    if j > 0 && !Opened(st, order[0]) {
      FirstOpenFinds(st, order[1..], j - 1);
    }
  }

  lemma BlockOpenMeans(st: State)
    ensures BlockOpen(st) <==> FirstOpen(st, BlockOrder) < |BlockOrder|
  {
    if Opened(st, BlockOrder[5]) {
      FirstOpenFinds(st, BlockOrder, 5);
    } else if Opened(st, BlockOrder[4]) {
      FirstOpenFinds(st, BlockOrder, 4);
    } else if Opened(st, BlockOrder[3]) {
      FirstOpenFinds(st, BlockOrder, 3);
    } else if Opened(st, BlockOrder[2]) {
      FirstOpenFinds(st, BlockOrder, 2);
    } else if Opened(st, BlockOrder[1]) {
      FirstOpenFinds(st, BlockOrder, 1);
    } else if Opened(st, BlockOrder[0]) {
      FirstOpenFinds(st, BlockOrder, 0);
    }
  }

  /** With a block tag open, a line end appends exactly one element: the
      closer of the first open tag of HEADER, PRE, QUOTE, LI, UL, OL. */
  lemma LineEndClosesFirstBlock(toks: seq<Token>, st: State)
    requires InRange(toks, st) && BlockOpen(st)
    ensures var k := FirstOpen(st, BlockOrder);
            k < |BlockOrder| &&
            LineEnd(toks, st) == Closing(st, BlockCloser(st, BlockOrder[k]), BlockOrder[k])
  {
    BlockOpenMeans(st);
    assert LineEnd(toks, st) == CloseBlock(st);
    CloseBlockClosesFirst(st);
  }

  lemma CloseBlockClosesFirst(st: State)
    requires FirstOpen(st, BlockOrder) < |BlockOrder|
    ensures var t := BlockOrder[FirstOpen(st, BlockOrder)];
            CloseBlock(st) == Closing(st, BlockCloser(st, t), t)
  {
    var k := FirstOpen(st, BlockOrder);
    if k == 1 {
      assert !Opened(st, BlockOrder[0]);
    } else if k == 2 {
      assert !Opened(st, BlockOrder[0]) && !Opened(st, BlockOrder[1]);
    } else if k == 3 {
      assert !Opened(st, BlockOrder[0]) && !Opened(st, BlockOrder[1]) && !Opened(st, BlockOrder[2]);
    } else if k == 4 {
      assert !Opened(st, BlockOrder[0]) && !Opened(st, BlockOrder[1]) && !Opened(st, BlockOrder[2]);
      assert !Opened(st, BlockOrder[3]);
    } else if k == 5 {
      assert !Opened(st, BlockOrder[0]) && !Opened(st, BlockOrder[1]) && !Opened(st, BlockOrder[2]);
      assert !Opened(st, BlockOrder[3]) && !Opened(st, BlockOrder[4]);
    }
  }

  /** Closing appends the closer and forgets the tag. */
  lemma ClosingEffect(st: State, e: Element, t: Tag)
    ensures var r := Closing(st, e, t);
            r.result == st.result + [e] && !Opened(r, t)
            && forall u :: u != t ==> (Opened(r, u) <==> Opened(st, u))
  {
    UnsetAllTagsOpenCloses(Emit(st, e).openTags, t);
  }

  /** So a line end with a block open closes exactly one tag, and leaves the
      others as they were. */
  lemma LineEndClosesOneBlock(toks: seq<Token>, st: State)
    requires InRange(toks, st) && BlockOpen(st)
    ensures var k := FirstOpen(st, BlockOrder);
            var r := LineEnd(toks, st);
            k < |BlockOrder| && var t := BlockOrder[k];
            |r.result| == |st.result| + 1 && r.result[..|st.result|] == st.result && r.result[|st.result|].close
            && !Opened(r, t) && forall u :: u != t ==> (Opened(r, u) <==> Opened(st, u))
  {
    LineEndClosesFirstBlock(toks, st);
    var t := BlockOrder[FirstOpen(st, BlockOrder)];
    ClosingEffect(st, BlockCloser(st, t), t);
  }

  /** With no block open, a line end inside a table whose next line does not
      start with a pipe closes the first open of TABLECELL, TABLEROW,
      TABLEHEADER, TABLE: one part per line end. */
  lemma LineEndClosesFirstTablePart(toks: seq<Token>, st: State)
    requires InRange(toks, st) && !BlockOpen(st) && Opened(st, Table)
    requires NextNonBlankKind(toks, st.i) != Pipe
    ensures var k := FirstOpen(st, TableOrder);
            k < |TableOrder| &&
            LineEnd(toks, st) == Closing(st, Close(TableOrder[k]), TableOrder[k])
  {
    var k := FirstOpen(st, TableOrder);
    assert LineEnd(toks, st) == TableEnd(st);
    FirstOpenFinds(st, TableOrder, 3);
    if k == 1 {
      assert !Opened(st, TableOrder[0]);
    } else if k == 2 {
      assert !Opened(st, TableOrder[0]) && !Opened(st, TableOrder[1]);
    } else if k == 3 {
      assert !Opened(st, TableOrder[0]) && !Opened(st, TableOrder[1]) && !Opened(st, TableOrder[2]);
    }
  }

  /** Ending a table takes one line end per open part: after a line end that
      closes a cell, row or header row, the table is still open. */
  lemma TableOutlivesItsParts(st: State)
    requires Opened(st, Table) && (Opened(st, TableCell) || Opened(st, TableRow) || Opened(st, TableHeader))
    ensures Opened(TableEnd(st), Table)
  {
    var t := if Opened(st, TableCell) then TableCell else if Opened(st, TableRow) then TableRow else TableHeader;
    ClosingEffect(st, Close(t), t);
  }

  /** A line end with neither a block nor a table open writes no closing
      element: after a list marker or an empty line it writes nothing, a line
      break becomes an empty line in place, and otherwise one line break is
      appended. */
  lemma IdleLineEnd(toks: seq<Token>, st: State)
    requires InRange(toks, st) && !BlockOpen(st) && !Opened(st, Table)
    ensures var r := LineEnd(toks, st);
            var p := LastTag(st.result);
            var n := |st.result|;
            r.i == st.i && r.openTags == st.openTags && r.expectUrl == st.expectUrl
            && (p == LI || p == OL || p == UL || p == EmptyLine ==> r.result == st.result)
            && (p == LineBreak ==>
                  (|r.result| == n && r.result[..n - 1] == st.result[..n - 1]
                   && r.result[n - 1] == st.result[n - 1].(tag := EmptyLine)))
            && (p != LI && p != OL && p != UL && p != EmptyLine && p != LineBreak ==>
                  r.result == st.result + [Open(LineBreak)])
  {
    assert LineEnd(toks, st) == LineBreakOrEmpty(st);
  }

  /** A run of idle line ends yields at most one empty line: from the second
      one on, nothing changes. */
  lemma IdleLineEndsSettle(st: State)
    ensures LineBreakOrEmpty(LineBreakOrEmpty(LineBreakOrEmpty(st))) == LineBreakOrEmpty(LineBreakOrEmpty(st))
  {
    var s1 := LineBreakOrEmpty(st);
    var p := LastTag(s1.result);
    assert p == LI || p == OL || p == UL || p == EmptyLine || p == LineBreak;
    var s2 := LineBreakOrEmpty(s1);
    assert LastTag(s2.result) == LI || LastTag(s2.result) == OL || LastTag(s2.result) == UL || LastTag(s2.result) == EmptyLine;
  }

  // ---------------------------------------------------------------------------
  // Quote and PRE lines merge with the block just before them.

  lemma MarkOpens(st: State, t: Tag)
    requires WellOpen(st)
    ensures WellOpen(Mark(st, t, 0)) && Opened(Mark(st, t, 0), t)
    ensures forall u :: u != t ==> (Opened(Mark(st, t, 0), u) <==> Opened(st, u))
  {
    MarkKeeps(st, t, 0);
  }

  /** A `>` at the beginning of a line keeps QUOTE open. Right after a QUOTE
      element it replaces that element with a line break, so the output keeps
      its length; otherwise it appends an opening QUOTE. */
  lemma QuoteLine(toks: seq<Token>, st: State)
    requires InRange(toks, st) && WellOpen(st) && toks[st.i].kind == Gt && Bol(toks, st.i)
    ensures var r := Dispatch(toks, st);
            var n := |st.result|;
            r.Continue? && r.st.i == st.i && WellOpen(r.st) && Opened(r.st, Tag.Quote)
            && (forall u :: u != Tag.Quote ==> (Opened(r.st, u) <==> Opened(st, u)))
            && (LastTag(st.result) == Tag.Quote ==>
                  (|r.st.result| == n && r.st.result[..n - 1] == st.result[..n - 1]
                   && r.st.result[n - 1] == Open(LineBreak)))
            && (LastTag(st.result) != Tag.Quote ==> r.st.result == st.result + [Open(Tag.Quote)])
  {
    DispatchOnQuoteMarker(toks, st);
    if LastTag(st.result) == Tag.Quote {
      MarkOpens(ReplaceLast(st, Open(LineBreak)), Tag.Quote);
    } else {
      MarkOpens(Emit(st, Open(Tag.Quote)), Tag.Quote);
    }
  }

  /** The spaces beyond four become one TEXT of that many spaces. */
  lemma PreIndentMeans(tok: Token)
    ensures |PreIndent(tok)| == (if tok.count > 4 then 1 else 0)
    ensures tok.count > 4 ==>
              PreIndent(tok)[0].tag == Elements.Text && |PreIndent(tok)[0].value| == tok.count - 4
              && forall c :: c in PreIndent(tok)[0].value ==> c == ' '
  {
  }

  /** Opening PRE, or continuing the PRE right before. */
  lemma PreOpenEffect(st: State)
    requires WellOpen(st)
    ensures var s1 := PreOpen(st);
            var n := |st.result|;
            s1.i == st.i && WellOpen(s1) && Opened(s1, Pre)
            && (forall u :: u != Pre ==> (Opened(s1, u) <==> Opened(st, u)))
            && (LastTag(st.result) == Pre ==> s1.result == st.result[..n - 1] + [Open(LineBreak)])
            && (LastTag(st.result) != Pre ==> s1.result == st.result + [Open(Pre)])
  {
    if LastTag(st.result) == Pre {
      MarkOpens(ReplaceLast(st, Open(LineBreak)), Pre);
    } else {
      MarkOpens(Emit(st, Open(Pre)), Pre);
    }
  }

  /** Four or more spaces at the beginning of a line with no list open keep
      PRE open. Right after a PRE element they replace it with a line break;
      otherwise they append an opening PRE. Either way the spaces beyond four
      follow as TEXT. */
  lemma PreLine(toks: seq<Token>, st: State)
    requires InRange(toks, st) && WellOpen(st)
    requires toks[st.i].kind == Ws && toks[st.i].count >= 4 && Bol(toks, st.i)
    requires !Opened(st, UL) && !Opened(st, OL)
    ensures var r := Dispatch(toks, st);
            r.Continue? && r.st.i == st.i && WellOpen(r.st) && Opened(r.st, Pre)
            && forall u :: u != Pre ==> (Opened(r.st, u) <==> Opened(st, u))
    ensures var r := Dispatch(toks, st);
            var n := |st.result|;
            LastTag(st.result) == Pre ==> r.st.result == st.result[..n - 1] + [Open(LineBreak)] + PreIndent(toks[st.i])
    ensures var r := Dispatch(toks, st);
            LastTag(st.result) != Pre ==> r.st.result == st.result + [Open(Pre)] + PreIndent(toks[st.i])
  {
    DispatchOnIndent(toks, st);
    var s1 := PreOpen(st);
    assert Dispatch(toks, st) == Continue(s1.(result := s1.result + PreIndent(toks[st.i])));
    PreOpenEffect(st);
  }

  // ---------------------------------------------------------------------------
  // Table header rows: a row of delimiter cells is dropped and the row before
  // it becomes the header row.

  /** Popping stops right after the last TABLEROW element. */
  lemma {:induction false} PopThroughRowAt(es: seq<Element>, j: nat)
    requires j < |es| && es[j].tag == TableRow
    requires forall m :: j < m < |es| ==> es[m].tag != TableRow
    ensures PopThroughRow(es) == es[..j]
    decreases |es|
  {
    var rest := es[..|es| - 1];
    if j < |es| - 1 {
      if rest != [] {
        PopThroughRowAt(rest, j);
        assert rest[..j] == es[..j];
      }
    }
  }

  /** With no TABLEROW left, popping empties the output. */
  lemma {:induction false} PopThroughRowNone(es: seq<Element>)
    requires forall m :: 0 <= m < |es| ==> es[m].tag != TableRow
    ensures PopThroughRow(es) == []
    decreases |es|
  {
    if es != [] {
      var rest := es[..|es| - 1];
      if rest != [] {
        PopThroughRowNone(rest);
      }
    }
  }

  predicate IsRowOpening(e: Element) {
    e.tag == TableRow && !e.close
  }

  /** `Promote(es, k)` where `o` is the nearest opening TABLEROW at or below
      `k` (-1 if none): the TABLEROW elements from `o` to `k` become
      TABLEHEADER, and nothing else changes. */
  lemma {:induction false} PromoteMeans(es: seq<Element>, k: int, o: int)
    requires -1 <= o <= k < |es|
    requires o >= 0 ==> IsRowOpening(es[o])
    requires forall m :: o < m <= k ==> !IsRowOpening(es[m])
    ensures var r := Promote(es, k);
            |r| == |es| &&
            forall m :: 0 <= m < |es| ==>
              r[m] == if o <= m <= k && es[m].tag == TableRow then es[m].(tag := TableHeader) else es[m]
    decreases k + 1
  {
    if k >= 0 {
      if es[k].tag == TableRow {
        var es' := es[k := es[k].(tag := TableHeader)];
        if es[k].close {
          assert forall m :: o < m <= k - 1 ==> !IsRowOpening(es'[m]);
          PromoteMeans(es', k - 1, o);
        }
      } else {
        PromoteMeans(es, k - 1, o);
      }
    }
  }

  /** When the line just ended holds only delimiter cells (and the output does
      not end on a row marker), the output is cut back to just before that
      line's TABLEROW, the row markers of the row before it, from its opening
      TABLEROW on, become TABLEHEADER, its cells stay as they were, and the
      row is no longer open. */
  lemma DelimiterRowBecomesHeader(st: State, o: int)
    requires |st.result| > 0 && LastTag(st.result) != TableRow
    requires DelimiterRow(st.result, |st.result| - 1) >= 0
    requires var j := DelimiterRow(st.result, |st.result| - 1);
             -1 <= o < j && (o >= 0 ==> IsRowOpening(st.result[o]))
             && forall m :: o < m < j ==> !IsRowOpening(st.result[m])
    ensures var j := DelimiterRow(st.result, |st.result| - 1);
            var es := st.result;
            var r := DropDelimited(st);
            |r.result| == j
            && (forall m :: 0 <= m < j ==>
                  r.result[m] == if o <= m && es[m].tag == TableRow then es[m].(tag := TableHeader) else es[m])
            && !Opened(r, TableRow)
            && forall u :: u != TableRow ==> (Opened(r, u) <==> Opened(st, u))
  {
    var es := st.result;
    var j := DelimiterRow(es, |es| - 1);
    DelimiterRowMeans(es, |es| - 1);
    PopThroughRowAt(es, j);
    var kept := PopThroughRow(es);
    assert kept == es[..j];
    PromoteMeans(kept, j - 1, o);
    UnsetAllTagsOpenCloses(st.openTags, TableRow);
  }
}
