/** The parser as the source writes it: one loop that appends to `$result`,
    edits its tail, updates `$opened`, the `expectURL` flag and the cursor `$i`.
    Every branch is a method proved to do what its `ParseSpec` function says,
    and `Parse` is proved to compute `ParseSpec.ParseTokens`. */
module Parser {
  import opened Tokens
  import opened Elements
  import opened OpenTags
  import opened Scan
  import opened ListLevels
  import opened ParseSpec

  /** How a branch ended: `continue`, on to the next branch, or a `TypeError`. */
  datatype Signal = Handled | Passed | Failed(error: ParseError)

  function AsStep(sig: Signal, s: State): Step {
    match sig
    case Handled => Continue(s)
    case Passed => FallThrough(s)
    case Failed(e) => Crash(e)
  }

  /** The local state of one call of `parse`. */
  class MarkdownParser {
    const tokens: seq<Token>
    var result: seq<Element>
    var openTags: seq<OpenEntry>
    var expectUrl: bool
    var i: int

    function Snapshot(): State
      reads this
    {
      State(i, result, openTags, expectUrl)
    }

    constructor (toks: seq<Token>)
      ensures tokens == toks && Snapshot() == Init
    {
      tokens := toks;
      result := [];
      openTags := [];
      expectUrl := false;
      i := 0;
    }

    // -------------------------------------------------------------------------
    // The buffer and the open-tag set.

    /** `$result[] = e`. */
    method Push(e: Element)
      modifies this
      ensures Snapshot() == Emit(old(Snapshot()), e)
    {
      result := result + [e];
    }

    /** `set_tag_open($opened, tag, data)`. */
    method SetOpen(tag: Tag, data: int)
      modifies this
      ensures Snapshot() == Mark(old(Snapshot()), tag, data)
    {
      if !IsTagOpen(openTags, tag) {
        openTags := openTags + [OpenEntry(tag, data)];
      }
    }

    /** `unset_all_tags_open($opened, tag)`. */
    method UnsetOpen(tag: Tag)
      modifies this
      ensures Snapshot() == Unmark(old(Snapshot()), tag)
    {
      openTags := UnsetAllTagsOpen(openTags, tag);
    }

    /** `$result[] = e;` then `set_tag_open`. */
    method PushOpen(e: Element, t: Tag, data: int)
      modifies this
      ensures Snapshot() == Opening(old(Snapshot()), e, t, data)
    {
      Push(e);
      SetOpen(t, data);
    }

    /** `$result[] = e;` then `unset_all_tags_open`. */
    method PushClose(e: Element, t: Tag)
      modifies this
      ensures Snapshot() == Closing(old(Snapshot()), e, t)
    {
      Push(e);
      UnsetOpen(t);
    }

    /** Close `t` if it is open. */
    method CloseTagIfOpen(t: Tag)
      modifies this
      ensures Snapshot() == CloseIfOpen(old(Snapshot()), t)
    {
      if IsTagOpen(openTags, t) {
        PushClose(Close(t), t);
      }
    }

    /** `$result[count($result) - 1] = e`. */
    method SetLast(e: Element)
      requires |result| > 0
      modifies this
      ensures Snapshot() == ReplaceLast(old(Snapshot()), e)
    {
      result := result[|result| - 1 := e];
    }

    /** `$result[count($result) - 1]->tag = t`. */
    method RetagLast(t: Tag)
      requires |result| > 0
      modifies this
      ensures Snapshot() == ReplaceLast(old(Snapshot()), old(result[|result| - 1]).(tag := t))
    {
      result := result[|result| - 1 := result[|result| - 1].(tag := t)];
    }

    /** The `do { array_pop } while` over `$result`. Popping an empty buffer
        yields `null`, whose tag reads as NONE. */
    method PopThroughTableRow()
      modifies this
      ensures Snapshot() == old(Snapshot()).(result := PopThroughRow(old(result)))
    {
      ghost var target := PopThroughRow(result);
      var current := NoTag;
      if |result| > 0 {
        current := result[|result| - 1].tag;
        result := result[..|result| - 1];
      }
      while current != TableRow && |result| > 0
        invariant if current != TableRow && |result| > 0 then PopThroughRow(result) == target else result == target
        invariant unchanged(`openTags) && unchanged(`expectUrl) && unchanged(`i)
        decreases |result|
      {
        current := result[|result| - 1].tag;
        result := result[..|result| - 1];
      }
    }

    /** The backward `for` that retags TABLEROW as TABLEHEADER until an opening one. */
    method PromoteHeaderRow()
      modifies this
      ensures Snapshot() == old(Snapshot()).(result := Promote(old(result), |old(result)| - 1))
    {
      var k := |result| - 1;
      while k >= 0
        invariant -1 <= k < |result|
        invariant Promote(result, k) == Promote(old(result), |old(result)| - 1)
        invariant unchanged(`openTags) && unchanged(`expectUrl) && unchanged(`i)
      {
        if result[k].tag == TableRow {
          result := result[k := result[k].(tag := TableHeader)];
          if !result[k].close {
            break;
          }
        }
        k := k - 1;
      }
    }

    // -------------------------------------------------------------------------
    // The branches of the loop body.

    method ListDash(tok: Token) returns (sig: Signal)
      requires 0 <= i < |tokens|
      modifies this
      ensures AsStep(sig, Snapshot()) == DashListRule(tokens, tok, old(Snapshot()))
    {
      if tok.kind == Dash {
        var bol := IsBeginningOfLine(tokens, i);
        if bol {
          UnorderedItem();
          return Handled;
        }
      }
      return Passed;
    }

    method UnorderedItem()
      requires 0 <= i < |tokens|
      modifies this
      ensures Snapshot() == BulletItem(tokens, old(Snapshot()))
    {
      var wsBefore := CountBeginningOfLineWs(tokens, i);
      if !IsTagOpen(openTags, UL) {
        PushOpen(NewElement(UL, wsBefore, false, ""), UL, wsBefore);
      }
      var ws := CountBeginningOfLineWs(tokens, i);
      PushOpen(NewElement(LI, ws, false, ""), LI, 0);
    }

    method ListDigit(tok: Token) returns (sig: Signal)
      requires 0 <= i < |tokens|
      modifies this
      ensures AsStep(sig, Snapshot()) == DigitListRule(tokens, tok, old(Snapshot()))
    {
      if tok.kind == Digit {
        var bol := IsBeginningOfLine(tokens, i);
        if bol {
          var next := NextKind(tokens, i);
          if next.Err? {
            return Failed(next.error);
          }
          if next.value == Dot {
            OrderedItem();
            return Handled;
          }
        }
      }
      return Passed;
    }

    /** Opens the numbered item and steps over its dot. */
    method OrderedItem()
      requires 0 <= i < |tokens|
      modifies this
      ensures Snapshot() == NumberedItem(tokens, old(Snapshot())).(i := old(i) + 1)
    {
      CloseTagIfOpen(LI);
      if !IsTagOpen(openTags, OL) {
        PushOpen(Open(OL), OL, 0);
      }
      var ws := CountBeginningOfLineWs(tokens, i);
      PushOpen(NewElement(LI, ws, false, ""), LI, 0);
      i := i + 1;
    }

    method StartTable(tok: Token) returns (sig: Signal)
      requires 0 <= i < |tokens|
      modifies this
      ensures AsStep(sig, Snapshot()) == TableStartRule(tokens, tok, old(Snapshot()))
    {
      if tok.kind == Pipe && !IsTagOpen(openTags, Table) {
        var bol := IsBeginningOfLine(tokens, i);
        if bol {
          PushOpen(Open(Table), Table, 0);
          PushOpen(Open(TableRow), TableRow, 0);
          PushOpen(Open(TableCell), TableCell, 0);
          return Handled;
        }
      }
      return Passed;
    }

    method TablePipe(tok: Token) returns (sig: Signal)
      requires 0 <= i < |tokens|
      modifies this
      ensures AsStep(sig, Snapshot()) == TableCellRule(tokens, tok, old(Snapshot()))
    {
      if tok.kind == Pipe && IsTagOpen(openTags, Table) {
        CloseTagIfOpen(TableCell);
        if NextNonBlankKind(tokens, i) != Ln {
          PushOpen(Open(TableCell), TableCell, 0);
        }
        return Handled;
      }
      return Passed;
    }

    method AtxHeader(tok: Token) returns (sig: Signal)
      requires 0 <= i < |tokens|
      modifies this
      ensures AsStep(sig, Snapshot()) == HeaderRule(tokens, tok, old(Snapshot()))
    {
      if tok.kind == Hash && tok.count <= 6 {
        var bol := IsBeginningOfLine(tokens, i);
        if bol {
          var next := NextKind(tokens, i);
          if next.Err? {
            return Failed(next.error);
          }
          if next.value == Ws {
            PushOpen(NewElement(Header, tok.count, false, ""), Header, tok.count);
            ghost var start := Snapshot();
            while i + 1 < |tokens| && tokens[i + 1].kind == Ws
              invariant start.i <= i < |tokens|
              invariant SkipWs(tokens, i) == SkipWs(tokens, start.i)
              invariant Snapshot() == start.(i := i)
              decreases |tokens| - i
            {
              i := i + 1;
            }
            return Handled;
          }
        }
      }
      return Passed;
    }

    method EmphasisMark(tok: Token) returns (sig: Signal)
      requires 0 <= i < |tokens|
      modifies this
      ensures AsStep(sig, Snapshot()) == EmphasisRule(tokens, tok, old(Snapshot()))
    {
      if !IsTagOpen(openTags, Pre) && (tok.kind == Asterisk || tok.kind == Underscore) {
        sig := MarkEmphasis(tok);
        return;
      }
      return Passed;
    }

    method MarkEmphasis(tok: Token) returns (sig: Signal)
      requires 0 <= i < |tokens|
      modifies this
      ensures AsStep(sig, Snapshot()) == EmphasisMarker(tokens, tok, old(Snapshot()))
    {
      ghost var start := Snapshot();
      var beforeType := Kind.Text;
      if i - 1 >= 0 {
        beforeType := tokens[i - 1].kind;
      }
      assert beforeType == BeforeKind(tokens, start.i);
      var t := ReadMarker(tok);
      if t == Strong {
        assert Snapshot() == start.(i := start.i + 1);
      } else {
        assert Snapshot() == start;
      }
      sig := ToggleEmphasis(t, beforeType);
    }

    /** A doubled marker is strong, and the cursor moves onto its second half. */
    method ReadMarker(tok: Token) returns (t: Tag)
      requires 0 <= i < |tokens|
      modifies this
      ensures t == MarkerTag(tokens, tok, old(i))
      ensures Snapshot() == if t == Strong then old(Snapshot()).(i := old(i) + 1) else old(Snapshot())
    {
      t := Emphasis;
      if i + 1 < |tokens| && tok.kind == tokens[i + 1].kind {
        i := i + 1;
        t := Strong;
      }
    }

    method ToggleEmphasis(t: Tag, beforeType: Kind) returns (sig: Signal)
      requires 0 <= i < |tokens| && (t == Strong || t == Emphasis)
      modifies this
      ensures AsStep(sig, Snapshot()) == EmphasisToggle(tokens, old(Snapshot()), t, beforeType)
    {
      if IsTagOpen(openTags, t) && beforeType != Ws && beforeType != Tab {
        PushClose(Close(t), t);
        return Handled;
      } else if i + 1 < |tokens| && tokens[i + 1].kind != Ws && tokens[i + 1].kind != Tab {
        PushOpen(Open(t), t, 0);
        return Handled;
      }
      return Passed;
    }

    method QuoteMark(tok: Token) returns (sig: Signal)
      requires 0 <= i < |tokens|
      modifies this
      ensures AsStep(sig, Snapshot()) == QuoteRule(tokens, tok, old(Snapshot()))
    {
      if tok.kind == Gt {
        var bol := IsBeginningOfLine(tokens, i);
        if bol {
          if |result| > 0 && result[|result| - 1].tag == Tag.Quote {
            SetLast(Open(LineBreak));
            SetOpen(Tag.Quote, 0);
            return Handled;
          }
          PushOpen(Open(Tag.Quote), Tag.Quote, 0);
          return Handled;
        }
      }
      return Passed;
    }

    method PreBlock(tok: Token) returns (sig: Signal)
      requires 0 <= i < |tokens|
      modifies this
      ensures AsStep(sig, Snapshot()) == PreRule(tokens, tok, old(Snapshot()))
    {
      if tok.kind == Ws && tok.count >= 4 && !IsForwardTokensList(tokens, i)
         && !IsTagOpen(openTags, UL) && !IsTagOpen(openTags, OL)
      {
        var bol := IsBeginningOfLine(tokens, i);
        if bol {
          OpenPre();
          PushIndent(tok);
          return Handled;
        }
      }
      return Passed;
    }

    method OpenPre()
      modifies this
      ensures Snapshot() == PreOpen(old(Snapshot()))
    {
      if |result| > 0 && result[|result| - 1].tag == Pre {
        SetLast(Open(LineBreak));
        SetOpen(Pre, 0);
      } else {
        PushOpen(Open(Pre), Pre, 0);
      }
    }

    /** The TEXT of the spaces beyond four. */
    method PushIndent(tok: Token)
      modifies this
      ensures Snapshot() == old(Snapshot()).(result := old(result) + PreIndent(tok))
    {
      if tok.count > 4 {
        Push(NewElement(Elements.Text, 0, false, Repeat(" ", tok.count - 4)));
      } else {
        assert result + PreIndent(tok) == result;
      }
    }

    method EndTable()
      modifies this
      ensures Snapshot() == TableEnd(old(Snapshot()))
    {
      if IsTagOpen(openTags, TableCell) {
        PushClose(Close(TableCell), TableCell);
      } else if IsTagOpen(openTags, TableRow) {
        PushClose(Close(TableRow), TableRow);
      } else if IsTagOpen(openTags, TableHeader) {
        PushClose(Close(TableHeader), TableHeader);
      } else {
        PushClose(Close(Table), Table);
      }
    }

    method ContinueTable()
      modifies this
      ensures Snapshot() == TableContinue(old(Snapshot())).(i := old(i) + 1)
    {
      DropIfDelimiterRow();
      CloseRowParts();
      OpenNextRow();
      Advance();
    }

    method OpenNextRow()
      modifies this
      ensures Snapshot() == NextRow(old(Snapshot()))
    {
      PushOpen(Open(TableRow), TableRow, 0);
      PushOpen(Open(TableCell), TableCell, 0);
    }

    method CloseRowParts()
      modifies this
      ensures Snapshot() == CloseRow(old(Snapshot()))
    {
      if IsTagOpen(openTags, TableCell) {
        Push(Close(TableCell));
      }
      if IsTagOpen(openTags, TableRow) {
        Push(Close(TableRow));
      }
      CloseTagIfOpen(TableHeader);
    }

    method DropIfDelimiterRow()
      modifies this
      ensures Snapshot() == DropDelimited(old(Snapshot()))
    {
      var row := IsPreviousTableRowDelimiterRow(result, |result| - 1);
      if row != -1 {
        PopThroughTableRow();
        PromoteHeaderRow();
        UnsetOpen(TableRow);
      }
    }

    method BreakLine()
      modifies this
      ensures Snapshot() == LineBreakOrEmpty(old(Snapshot()))
    {
      var previousTag := LastTag(result);
      if previousTag == LI || previousTag == OL || previousTag == UL {
        return;
      }
      if previousTag == LineBreak {
        RetagLast(EmptyLine);
        return;
      }
      if previousTag == EmptyLine {
        return;
      }
      Push(Open(LineBreak));
    }

    method LineEnding(tok: Token) returns (sig: Signal)
      requires 0 <= i < |tokens|
      modifies this
      ensures AsStep(sig, Snapshot()) == LineEndRule(tokens, tok, old(Snapshot()))
    {
      if tok.kind != Ln {
        return Passed;
      }
      CloseAtLineEnd();
      return Handled;
    }

    /** The body of the line-end branch. */
    method CloseAtLineEnd()
      requires 0 <= i < |tokens|
      modifies this
      ensures Snapshot() == LineEnd(tokens, old(Snapshot()))
    {
      if IsTagOpen(openTags, Header) || IsTagOpen(openTags, Pre) || IsTagOpen(openTags, Tag.Quote)
         || IsTagOpen(openTags, LI) || IsTagOpen(openTags, UL) || IsTagOpen(openTags, OL)
      {
        CloseBlockTag();
      } else {
        CloseTableOrBreak();
      }
    }

    method CloseTableOrBreak()
      requires 0 <= i < |tokens|
      modifies this
      ensures Snapshot() == TableOrBreak(tokens, old(Snapshot()))
    {
      if IsTagOpen(openTags, Table) {
        TableLine();
      } else {
        BreakLine();
      }
    }

    method TableLine()
      requires 0 <= i < |tokens|
      modifies this
      ensures Snapshot() == TableLineEnd(tokens, old(Snapshot()))
    {
      if NextNonBlankKind(tokens, i) != Pipe {
        EndTable();
      } else {
        ContinueTable();
      }
    }

    /** The first six cases of the line-end branch. */
    method CloseBlockTag()
      modifies this
      ensures Snapshot() == CloseBlock(old(Snapshot()))
    {
      if IsTagOpen(openTags, Header) {
        var openedTags := GetOpenTagsByType(openTags, Header);
        PushClose(NewElement(Header, if openedTags == [] then 0 else openedTags[0].data, true, ""), Header);
      } else if IsTagOpen(openTags, Pre) {
        PushClose(Close(Pre), Pre);
      } else if IsTagOpen(openTags, Tag.Quote) {
        PushClose(Close(Tag.Quote), Tag.Quote);
      } else if IsTagOpen(openTags, LI) {
        PushClose(Close(LI), LI);
      } else if IsTagOpen(openTags, UL) {
        PushClose(Close(UL), UL);
      } else if IsTagOpen(openTags, OL) {
        var mdElement := NewElement(NoTag, 0, false, "");
        mdElement := mdElement.(tag := OL, close := true);
        PushClose(mdElement, OL);
      }
    }

    method LinkMark(tok: Token) returns (sig: Signal)
      requires 0 <= i < |tokens|
      modifies this
      ensures AsStep(sig, Snapshot()) == LinksRule(tokens, tok, old(Snapshot()))
    {
      if tok.kind == LBracket {
        PushOpen(NewElement(UrlCaption, 0, false, tok.value), UrlCaption, 0);
        return Handled;
      }
      if tok.kind == RBracket && IsTagOpen(openTags, UrlCaption) {
        PushClose(NewElement(UrlCaption, 0, true, tok.value), UrlCaption);
        expectUrl := true;
        return Handled;
      }
      if tok.kind == LParen && expectUrl {
        PushOpen(NewElement(Url, 0, false, tok.value), Url, 0);
        expectUrl := false;
        return Handled;
      }
      if tok.kind == RParen && IsTagOpen(openTags, Url) {
        PushClose(NewElement(Url, 0, true, tok.value), Url);
        return Handled;
      }
      return Passed;
    }

    method StrikeMark(tok: Token) returns (sig: Signal)
      requires 0 <= i < |tokens|
      modifies this
      ensures AsStep(sig, Snapshot()) == StrikeRule(tokens, tok, old(Snapshot()))
    {
      if tok.kind == Dash && !IsTagOpen(openTags, TableCell) {
        if !IsTagOpen(openTags, Strikethrough) {
          var next := NextKind(tokens, i);
          if next.Err? {
            return Failed(next.error);
          }
          if next.value != Ws {
            PushOpen(Open(Strikethrough), Strikethrough, 0);
            return Handled;
          }
        }
        if IsTagOpen(openTags, Strikethrough) && PrevKind(tokens, i) != Ws {
          PushClose(Close(Strikethrough), Strikethrough);
          return Handled;
        }
      }
      return Passed;
    }

    method PlainText(tok: Token) returns (sig: Signal)
      requires 0 <= i < |tokens|
      modifies this
      ensures AsStep(sig, Snapshot()) == TextRule(tokens, tok, old(Snapshot()))
    {
      if LastTag(result) == LI && IsEmptyValue(tok.value) {
        return Handled;
      }
      var value := if IsRepeatedInText(tok.kind) then Repeat(tok.value, tok.count) else tok.value;
      Push(NewElement(Elements.Text, 0, false, value));
      return Handled;
    }

    /** One pass of the loop body on the token at the cursor. */
    method ParseToken() returns (sig: Signal)
      requires 0 <= i < |tokens|
      modifies this
      ensures AsStep(sig, Snapshot()) == Dispatch(tokens, old(Snapshot()))
    {
      var token := tokens[i];
      sig := ListBranches(token);
      if !sig.Passed? { return; }
      sig := TableHeaderBranches(token);
      if !sig.Passed? { return; }
      sig := MarkerBranches(token);
      if !sig.Passed? { return; }
      sig := PreBranch(token);
      if !sig.Passed? { return; }
      sig := LineEndBranch(token);
      if !sig.Passed? { return; }
      sig := InlineBranches(token);
    }

    /** The branches on list items. */
    method ListBranches(token: Token) returns (sig: Signal)
      requires 0 <= i < |tokens|
      modifies this
      ensures !sig.Passed? ==> AsStep(sig, Snapshot()) == TryBranch(tokens, token, old(Snapshot()), 0)
      ensures sig.Passed? ==> 0 <= i < |tokens| && TryBranch(tokens, token, old(Snapshot()), 0) == TryBranch(tokens, token, Snapshot(), 2)
    {
      DashListInChain(tokens, token, Snapshot());
      sig := ListDash(token);
      if !sig.Passed? { return; }
      DigitListInChain(tokens, token, Snapshot());
      sig := ListDigit(token);
    }

    /** The branches on tables and ATX headers. */
    method TableHeaderBranches(token: Token) returns (sig: Signal)
      requires 0 <= i < |tokens|
      modifies this
      ensures !sig.Passed? ==> AsStep(sig, Snapshot()) == TryBranch(tokens, token, old(Snapshot()), 2)
      ensures sig.Passed? ==> 0 <= i < |tokens| && TryBranch(tokens, token, old(Snapshot()), 2) == TryBranch(tokens, token, Snapshot(), 5)
    {
      TableStartInChain(tokens, token, Snapshot());
      sig := StartTable(token);
      if !sig.Passed? { return; }
      TableCellInChain(tokens, token, Snapshot());
      sig := TablePipe(token);
      if !sig.Passed? { return; }
      HeaderInChain(tokens, token, Snapshot());
      sig := AtxHeader(token);
    }

    /** The branches on emphasis markers and quotes. */
    method MarkerBranches(token: Token) returns (sig: Signal)
      requires 0 <= i < |tokens|
      modifies this
      ensures !sig.Passed? ==> AsStep(sig, Snapshot()) == TryBranch(tokens, token, old(Snapshot()), 5)
      ensures sig.Passed? ==> 0 <= i < |tokens| && TryBranch(tokens, token, old(Snapshot()), 5) == TryBranch(tokens, token, Snapshot(), 7)
    {
      EmphasisInChain(tokens, token, Snapshot());
      sig := EmphasisMark(token);
      if !sig.Passed? { return; }
      QuoteInChain(tokens, token, Snapshot());
      sig := QuoteMark(token);
    }

    /** The branch on PRE blocks. */
    method PreBranch(token: Token) returns (sig: Signal)
      requires 0 <= i < |tokens|
      modifies this
      ensures !sig.Passed? ==> AsStep(sig, Snapshot()) == TryBranch(tokens, token, old(Snapshot()), 7)
      ensures sig.Passed? ==> 0 <= i < |tokens| && TryBranch(tokens, token, old(Snapshot()), 7) == TryBranch(tokens, token, Snapshot(), 8)
    {
      PreInChain(tokens, token, Snapshot());
      sig := PreBlock(token);
    }

    /** The branch on line ends. */
    method LineEndBranch(token: Token) returns (sig: Signal)
      requires 0 <= i < |tokens|
      modifies this
      ensures !sig.Passed? ==> AsStep(sig, Snapshot()) == TryBranch(tokens, token, old(Snapshot()), 8)
      ensures sig.Passed? ==> 0 <= i < |tokens| && TryBranch(tokens, token, old(Snapshot()), 8) == TryBranch(tokens, token, Snapshot(), 9)
    {
      LineEndInChain(tokens, token, Snapshot());
      sig := LineEnding(token);
    }

    /** Links, strikethrough and plain text. */
    method InlineBranches(token: Token) returns (sig: Signal)
      requires 0 <= i < |tokens|
      modifies this
      ensures AsStep(sig, Snapshot()) == TryBranch(tokens, token, old(Snapshot()), 9)
    {
      LinksInChain(tokens, token, Snapshot());
      sig := LinkMark(token);
      if !sig.Passed? { return; }
      StrikeInChain(tokens, token, Snapshot());
      sig := StrikeMark(token);
      if !sig.Passed? { return; }
      TextInChain(tokens, token, Snapshot());
      sig := PlainText(token);
    }

    /** The loop's `$i++`. */
    method Advance()
      modifies this
      ensures Snapshot() == old(Snapshot()).(i := old(i) + 1)
    {
      i := i + 1;
    }

    /** One turn of the loop: the body, then `$i++` unless it threw. */
    method Turn() returns (sig: Signal)
      requires 0 <= i < |tokens|
      modifies this
      ensures sig.Failed? ==> Run(tokens, old(Snapshot())) == Err(sig.error)
      ensures !sig.Failed? ==> old(i) < i && Run(tokens, Snapshot()) == Run(tokens, old(Snapshot()))
    {
      ghost var before := Snapshot();
      sig := ParseToken();
      ghost var step := AsStep(sig, Snapshot());
      RunTurn(tokens, before, step);
      if sig.Failed? {
        return;
      }
      ResumeNext(tokens, step);
      Advance();
      assert Snapshot() == step.st.(i := step.st.i + 1);
    }

    /** The token loop from the cursor to the end. */
    method RunAll() returns (r: Result<seq<Element>>)
      requires 0 <= i
      modifies this
      ensures r == Run(tokens, old(Snapshot()))
    {
      while i < |tokens|
        invariant 0 <= i
        invariant Run(tokens, Snapshot()) == Run(tokens, old(Snapshot()))
        decreases |tokens| - i
      {
        var sig := Turn();
        if sig.Failed? {
          return Err(sig.error);
        }
      }
      return Ok(result);
    }
  }

  /** `parse`: the token loop over a fresh parser state, then `setLILevel`
      over the elements in place. */
  method Parse(toks: seq<Token>) returns (r: Result<seq<Element>>)
    ensures r == ParseTokens(toks)
  {
    if |toks| == 0 {
      return Ok([]);
    }
    var p := new MarkdownParser(toks);
    var run := p.RunAll();
    if run.Err? {
      return Err(run.error);
    }
    var es := run.value;
    var elements := new Element[|es|](k requires 0 <= k < |es| => es[k]);
    assert elements[..] == es;
    var res := SetLILevel(elements);
    if res.Err? {
      return Err(res.error);
    }
    return Ok(elements[..]);
  }
}
