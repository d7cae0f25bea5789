/** The parser (src/parse.php `parse`) as pure functions: one per branch of the
    loop body, in the order the source tries them, over the loop's state. The
    class in `Parser` runs the same branches imperatively and is proved equal
    to `ParseTokens`. */
module ParseSpec {
  import opened Tokens
  import opened Elements
  import opened OpenTags
  import opened Scan
  import opened ListLevels

  /** The loop's state: the cursor `$i`, the output `$result`, the open-tag
      set `$opened` and `$state['expectURL']`. */
  datatype State = State(i: int, result: seq<Element>, openTags: seq<OpenEntry>, expectUrl: bool)

  /** What one branch does with the current token: it handles it (`continue`),
      lets the later branches try (possibly after moving the cursor), or the
      PHP code throws. */
  datatype Step = Continue(st: State) | FallThrough(st: State) | Crash(error: ParseError)

  const Init := State(0, [], [], false)

  predicate InRange(toks: seq<Token>, st: State) {
    0 <= st.i < |toks|
  }

  /** A step leaves the cursor on a token at or after where it was. */
  predicate Advances(toks: seq<Token>, st: State, r: Step) {
    !r.Crash? ==> st.i <= r.st.i < |toks|
  }

  function Emit(st: State, e: Element): State {
    st.(result := st.result + [e])
  }

  function Mark(st: State, tag: Tag, data: int): State {
    st.(openTags := SetTagOpen(st.openTags, tag, data))
  }

  function Unmark(st: State, tag: Tag): State {
    st.(openTags := UnsetAllTagsOpen(st.openTags, tag))
  }

  predicate Opened(st: State, tag: Tag) {
    IsTagOpen(st.openTags, tag)
  }

  /** `peek_previous_element($result, count($result))->tag`: NONE when empty. */
  function LastTag(es: seq<Element>): Tag {
    if es == [] then NoTag else es[|es| - 1].tag
  }

  /** `$result[] = e;` then `set_tag_open($opened, t, data)`. */
  function Opening(st: State, e: Element, t: Tag, data: int): State {
    Mark(Emit(st, e), t, data)
  }

  /** `$result[] = e;` then `unset_all_tags_open($opened, t)`. */
  function Closing(st: State, e: Element, t: Tag): State {
    Unmark(Emit(st, e), t)
  }

  /** Close `t` with a plain closing element if it is open. */
  function CloseIfOpen(st: State, t: Tag): State {
    if Opened(st, t) then Closing(st, Close(t), t) else st
  }

  /** `$result[count($result) - 1] = e`. */
  function ReplaceLast(st: State, e: Element): State
    requires |st.result| > 0
  {
    st.(result := st.result[..|st.result| - 1] + [e])
  }

  // ---------------------------------------------------------------------------
  // The branches of the loop body, in order.

  /** A dash at the beginning of a line opens the UL if needed (level and
      payload: the leading whitespace width) and an LI of that width. */
  function DashListRule(toks: seq<Token>, tok: Token, st: State): (r: Step)
    requires InRange(toks, st)
    ensures Advances(toks, st, r) && (r.FallThrough? ==> r.st == st)
  {
    if tok.kind == Dash && Bol(toks, st.i) then Continue(BulletItem(toks, st)) else FallThrough(st)
  }

  function BulletItem(toks: seq<Token>, st: State): State
    requires InRange(toks, st)
  {
    var ws := LeadingWidth(toks, st.i);
    var s1 := if !Opened(st, UL) then Opening(st, NewElement(UL, ws, false, ""), UL, ws) else st;
    Opening(s1, NewElement(LI, ws, false, ""), LI, 0)
  }

  /** Digits then a dot at the beginning of a line: close the open LI, open the
      OL if needed, open an LI and skip the dot. Asking for the next token at the
      last index throws. */
  function DigitListRule(toks: seq<Token>, tok: Token, st: State): (r: Step)
    requires InRange(toks, st)
    ensures Advances(toks, st, r) && (r.FallThrough? ==> r.st == st)
    ensures r.Crash? <==> tok.kind == Digit && Bol(toks, st.i) && st.i + 1 == |toks|
  {
    if tok.kind == Digit && Bol(toks, st.i) then
      match NextKind(toks, st.i)
      case Err(e) => Crash(e)
      case Ok(k) =>
        if k == Dot then Continue(NumberedItem(toks, st).(i := st.i + 1)) else FallThrough(st)
    else FallThrough(st)
  }

  function NumberedItem(toks: seq<Token>, st: State): State
    requires InRange(toks, st)
  {
    var s1 := CloseIfOpen(st, LI);
    var s2 := if !Opened(s1, OL) then Opening(s1, Open(OL), OL, 0) else s1;
    Opening(s2, NewElement(LI, LeadingWidth(toks, st.i), false, ""), LI, 0)
  }

  /** A pipe at the beginning of a line outside a table opens a table, a row and a cell. */
  function TableStartRule(toks: seq<Token>, tok: Token, st: State): (r: Step)
    requires InRange(toks, st)
    ensures Advances(toks, st, r) && (r.FallThrough? ==> r.st == st)
  {
    if tok.kind == Pipe && !Opened(st, Table) && Bol(toks, st.i) then
      Continue(Opening(Opening(Opening(st, Open(Table), Table, 0), Open(TableRow), TableRow, 0), Open(TableCell), TableCell, 0))
    else FallThrough(st)
  }

  /** A pipe inside a table closes the open cell and opens the next one unless
      only blanks remain before the line end. */
  function TableCellRule(toks: seq<Token>, tok: Token, st: State): (r: Step)
    requires InRange(toks, st)
    ensures Advances(toks, st, r) && (r.FallThrough? ==> r.st == st)
  {
    if tok.kind == Pipe && Opened(st, Table) then
      var s1 := CloseIfOpen(st, TableCell);
      Continue(if NextNonBlankKind(toks, st.i) != Ln then Opening(s1, Open(TableCell), TableCell, 0) else s1)
    else FallThrough(st)
  }

  /** The last index of the run of WS tokens right after `i` (the loop that
      trims the spaces after a header's hashes). */
  function SkipWs(toks: seq<Token>, i: int): (j: int)
    requires 0 <= i < |toks|
    ensures i <= j < |toks|
    decreases |toks| - i
  {
    if i + 1 < |toks| && toks[i + 1].kind == Ws then SkipWs(toks, i + 1) else i
  }

  /** The skipped tokens are all WS, and the one after them is not. */
  lemma {:induction false} SkipWsMeans(toks: seq<Token>, i: int)
    requires 0 <= i < |toks|
    ensures forall k :: i < k <= SkipWs(toks, i) ==> toks[k].kind == Ws
    ensures SkipWs(toks, i) + 1 < |toks| ==> toks[SkipWs(toks, i) + 1].kind != Ws
    decreases |toks| - i
  {
    if i + 1 < |toks| && toks[i + 1].kind == Ws {
      SkipWsMeans(toks, i + 1);
    }
  }

  /** At most six hashes at the beginning of a line followed by a space open a
      header of that level and skip the spaces. */
  function HeaderRule(toks: seq<Token>, tok: Token, st: State): (r: Step)
    requires InRange(toks, st)
    ensures Advances(toks, st, r) && (r.FallThrough? ==> r.st == st)
    ensures r.Crash? <==> tok.kind == Hash && tok.count <= 6 && Bol(toks, st.i) && st.i + 1 == |toks|
  {
    if tok.kind == Hash && tok.count <= 6 && Bol(toks, st.i) then
      match NextKind(toks, st.i)
      case Err(e) => Crash(e)
      case Ok(k) =>
        if k == Ws then
          Continue(Opening(st, NewElement(Header, tok.count, false, ""), Header, tok.count).(i := SkipWs(toks, st.i)))
        else FallThrough(st)
    else FallThrough(st)
  }

  /** The kind of the token before `i`, TEXT at the start. */
  function BeforeKind(toks: seq<Token>, i: int): Kind
    requires i <= |toks|
  {
    if i - 1 >= 0 then toks[i - 1].kind else Kind.Text
  }

  /** Outside a PRE block an asterisk or underscore is strong when the next
      token has its kind (the cursor then moves onto it), emphasis otherwise.
      It closes the open tag of that type unless a blank comes before it, opens
      it when a non-blank follows, and otherwise falls through to the later
      branches (ending as TEXT). */
  function EmphasisRule(toks: seq<Token>, tok: Token, st: State): (r: Step)
    requires InRange(toks, st)
    ensures Advances(toks, st, r)
  {
    if !Opened(st, Pre) && (tok.kind == Asterisk || tok.kind == Underscore) then
      EmphasisMarker(toks, tok, st)
    else FallThrough(st)
  }

  /** An emphasis marker outside PRE: read its tag, then toggle that tag. */
  function EmphasisMarker(toks: seq<Token>, tok: Token, st: State): (r: Step)
    requires InRange(toks, st)
    ensures Advances(toks, st, r)
  {
    var before := BeforeKind(toks, st.i);
    if MarkerTag(toks, tok, st.i) == Strong then EmphasisToggle(toks, st.(i := st.i + 1), Strong, before)
    else EmphasisToggle(toks, st, Emphasis, before)
  }

  /** A marker is strong when the next token has its kind, emphasis otherwise. */
  function MarkerTag(toks: seq<Token>, tok: Token, i: int): Tag
    requires 0 <= i
  {
    if i + 1 < |toks| && tok.kind == toks[i + 1].kind then Strong else Emphasis
  }

  /** Close the open tag `t` unless a blank comes before the marker, else open
      it when a non-blank follows the marker, else fall through. */
  function EmphasisToggle(toks: seq<Token>, st: State, t: Tag, before: Kind): (r: Step)
    requires InRange(toks, st)
    ensures Advances(toks, st, r) && (r.FallThrough? ==> r.st == st)
  {
    if Opened(st, t) && !IsBlank(before) then Continue(Closing(st, Close(t), t))
    else if st.i + 1 < |toks| && !IsBlank(toks[st.i + 1].kind) then Continue(Opening(st, Open(t), t, 0))
    else FallThrough(st)
  }

  /** A `>` at the beginning of a line opens a quote; on a line right after a
      quote marker it replaces that marker with a line break instead. */
  function QuoteRule(toks: seq<Token>, tok: Token, st: State): (r: Step)
    requires InRange(toks, st)
    ensures Advances(toks, st, r) && (r.FallThrough? ==> r.st == st)
  {
    if tok.kind == Gt && Bol(toks, st.i) then
      if |st.result| > 0 && st.result[|st.result| - 1].tag == Tag.Quote then
        Continue(Mark(ReplaceLast(st, Open(LineBreak)), Tag.Quote, 0))
      else Continue(Opening(st, Open(Tag.Quote), Tag.Quote, 0))
    else FallThrough(st)
  }

  /** The TEXT of the spaces beyond the four that open a PRE block. */
  function PreIndent(tok: Token): seq<Element> {
    if tok.count > 4 then [NewElement(Elements.Text, 0, false, Repeat(" ", tok.count - 4))] else []
  }

  /** Four or more spaces at the beginning of a line outside any list open a
      PRE block (or, right after a PRE marker, replace it with a line break),
      followed by the extra spaces as TEXT. */
  function PreRule(toks: seq<Token>, tok: Token, st: State): (r: Step)
    requires InRange(toks, st)
    ensures Advances(toks, st, r) && (r.FallThrough? ==> r.st == st)
  {
    if tok.kind == Ws && tok.count >= 4 && !IsForwardTokensList(toks, st.i)
       && !Opened(st, UL) && !Opened(st, OL) && Bol(toks, st.i)
    then
      var s1 := PreOpen(st);
      Continue(s1.(result := s1.result + PreIndent(tok)))
    else FallThrough(st)
  }

  /** Open a PRE block, or continue the one whose marker ends the output. */
  function PreOpen(st: State): State {
    if |st.result| > 0 && st.result[|st.result| - 1].tag == Pre
    then Mark(ReplaceLast(st, Open(LineBreak)), Pre, 0)
    else Opening(st, Open(Pre), Pre, 0)
  }

  /** A line end closes a table that does not go on: the cell, else the row,
      else the header row, else the table. */
  function TableEnd(st: State): (r: State)
    ensures r.i == st.i
  {
    if Opened(st, TableCell) then Closing(st, Close(TableCell), TableCell)
    else if Opened(st, TableRow) then Closing(st, Close(TableRow), TableRow)
    else if Opened(st, TableHeader) then Closing(st, Close(TableHeader), TableHeader)
    else Closing(st, Close(Table), Table)
  }

  /** The `do … while` of `array_pop`: pop elements up to and including a
      TABLEROW, or until nothing is left. */
  function PopThroughRow(es: seq<Element>): (r: seq<Element>)
    ensures |r| < |es| || es == []
    ensures r <= es
  {
    if es == [] then []
    else
      var rest := es[..|es| - 1];
      if es[|es| - 1].tag == TableRow || rest == [] then rest else PopThroughRow(rest)
  }

  /** The backward `for` from index `k`: every TABLEROW becomes a TABLEHEADER,
      and the loop stops after retagging an opening one. */
  function Promote(es: seq<Element>, k: int): (r: seq<Element>)
    requires k < |es|
    ensures |r| == |es|
    decreases k + 1
  {
    if k < 0 then es
    else if es[k].tag == TableRow then
      var es' := es[k := es[k].(tag := TableHeader)];
      if !es[k].close then es' else Promote(es', k - 1)
    else Promote(es, k - 1)
  }

  /** A line end inside a table whose next line starts with a pipe: a row just
      made of delimiter cells is popped and the previous row becomes a header
      row; then the open cell, row and header row are closed and a new row and
      cell are opened, and the cursor skips the next token. */
  function TableContinue(st: State): (r: State)
    ensures r.i == st.i
  {
    NextRow(CloseRow(DropDelimited(st)))
  }

  /** When the row just ended holds only delimiter cells, drop it and promote. */
  function DropDelimited(st: State): State {
    if DelimiterRow(st.result, |st.result| - 1) != -1 then PromoteDelimited(st) else st
  }

  /** Open the next row and its first cell. */
  function NextRow(st: State): State {
    Opening(Opening(st, Open(TableRow), TableRow, 0), Open(TableCell), TableCell, 0)
  }

  /** Close the open cell and row (both stay in the open set) and the open
      header row. */
  function CloseRow(st: State): State {
    var s1 := if Opened(st, TableCell) then Emit(st, Close(TableCell)) else st;
    var s2 := if Opened(s1, TableRow) then Emit(s1, Close(TableRow)) else s1;
    CloseIfOpen(s2, TableHeader)
  }

  /** Drop the delimiter row, promote the row before it, and forget the open row. */
  function PromoteDelimited(st: State): State {
    var es := PopThroughRow(st.result);
    Unmark(st.(result := Promote(es, |es| - 1)), TableRow)
  }

  /** A line end with nothing to close: nothing after a list marker or an
      empty line, an empty line instead of a second line break, else a line break. */
  function LineBreakOrEmpty(st: State): (r: State)
    ensures r.i == st.i
  {
    var p := LastTag(st.result);
    if p == LI || p == OL || p == UL then st
    else if p == LineBreak then
      ReplaceLast(st, st.result[|st.result| - 1].(tag := EmptyLine))
    else if p == EmptyLine then st
    else Emit(st, Open(LineBreak))
  }

  /** Some tag a line end closes before anything else is open. */
  predicate BlockOpen(st: State) {
    Opened(st, Header) || Opened(st, Pre) || Opened(st, Tag.Quote) || Opened(st, LI) || Opened(st, UL) || Opened(st, OL)
  }

  /** Close the first open of HEADER (with its level), PRE, QUOTE, LI, UL, OL. */
  function CloseBlock(st: State): (r: State)
    ensures r.i == st.i
  {
    if Opened(st, Header) then Closing(st, NewElement(Header, HeaderData(st.openTags), true, ""), Header)
    else if Opened(st, Pre) then Closing(st, Close(Pre), Pre)
    else if Opened(st, Tag.Quote) then Closing(st, Close(Tag.Quote), Tag.Quote)
    else if Opened(st, LI) then Closing(st, Close(LI), LI)
    else if Opened(st, UL) then Closing(st, Close(UL), UL)
    else if Opened(st, OL) then Closing(st, Element(OL, 0, true, "", false), OL)
    else st
  }

  /** A line end: close the first open of HEADER (with its level), PRE, QUOTE,
      LI, UL, OL (the OL close is built from an empty element, so it is not a
      block); else end or continue a table; else a line break. */
  function LineEnd(toks: seq<Token>, st: State): (r: State)
    requires InRange(toks, st)
    ensures r.i == st.i || r.i == st.i + 1 < |toks|
  {
    if BlockOpen(st) then CloseBlock(st) else TableOrBreak(toks, st)
  }

  /** A line end with no block open: end or continue a table, else a line break. */
  function TableOrBreak(toks: seq<Token>, st: State): (r: State)
    requires InRange(toks, st)
    ensures r.i == st.i || r.i == st.i + 1 < |toks|
  {
    if Opened(st, Table) then TableLineEnd(toks, st) else LineBreakOrEmpty(st)
  }

  /** A line end inside a table: the table goes on when the next non-blank
      token is a pipe, and ends otherwise. */
  function TableLineEnd(toks: seq<Token>, st: State): (r: State)
    requires InRange(toks, st)
    ensures r.i == st.i || r.i == st.i + 1 < |toks|
  {
    if NextNonBlankKind(toks, st.i) != Pipe then TableEnd(st)
    else
      assert FirstNonBlankFrom(toks, st.i + 1) < |toks|;
      TableContinue(st).(i := st.i + 1)
  }

  function LineEndRule(toks: seq<Token>, tok: Token, st: State): (r: Step)
    requires InRange(toks, st)
    ensures Advances(toks, st, r) && (r.FallThrough? ==> r.st == st)
  {
    if tok.kind == Ln then
      Continue(LineEnd(toks, st))
    else FallThrough(st)
  }

  /** Link syntax: `[` opens a caption, `]` closes an open caption and expects
      a URL, `(` opens the expected URL, `)` closes an open URL. */
  function LinksRule(toks: seq<Token>, tok: Token, st: State): (r: Step)
    requires InRange(toks, st)
    ensures Advances(toks, st, r) && (r.FallThrough? ==> r.st == st)
  {
    if tok.kind == LBracket then
      Continue(Opening(st, NewElement(UrlCaption, 0, false, tok.value), UrlCaption, 0))
    else if tok.kind == RBracket && Opened(st, UrlCaption) then
      Continue(Closing(st, NewElement(UrlCaption, 0, true, tok.value), UrlCaption).(expectUrl := true))
    else if tok.kind == LParen && st.expectUrl then
      Continue(Opening(st, NewElement(Url, 0, false, tok.value), Url, 0).(expectUrl := false))
    else if tok.kind == RParen && Opened(st, Url) then
      Continue(Closing(st, NewElement(Url, 0, true, tok.value), Url))
    else FallThrough(st)
  }

  /** A dash outside a table cell opens a strikethrough when none is open and
      no space follows, and closes the open one when no space precedes. Asking
      for the next token at the last index throws. */
  function StrikeRule(toks: seq<Token>, tok: Token, st: State): (r: Step)
    requires InRange(toks, st)
    ensures Advances(toks, st, r) && (r.FallThrough? ==> r.st == st)
    ensures r.Crash? <==> tok.kind == Dash && !Opened(st, TableCell) && !Opened(st, Strikethrough) && st.i + 1 == |toks|
  {
    if tok.kind == Dash && !Opened(st, TableCell) then
      if !Opened(st, Strikethrough) then
        match NextKind(toks, st.i)
        case Err(e) => Crash(e)
        case Ok(k) =>
          if k != Ws then Continue(Opening(st, Open(Strikethrough), Strikethrough, 0))
          else FallThrough(st)
      else if PrevKind(toks, st.i) != Ws then Continue(Closing(st, Close(Strikethrough), Strikethrough))
      else FallThrough(st)
    else FallThrough(st)
  }

  /** Kinds whose TEXT spells the run out (`str_repeat` of value and count). */
  predicate IsRepeatedInText(k: Kind) {
    k == Ws || k == Tab || k == Backtick || k == Underscore || k == Dash || k == Asterisk
  }

  function TextValue(tok: Token): string {
    if IsRepeatedInText(tok.kind) then Repeat(tok.value, tok.count) else tok.value
  }

  /** What is left is TEXT, except blanks right after a list item marker. */
  function TextRule(toks: seq<Token>, tok: Token, st: State): (r: Step)
    requires InRange(toks, st)
    ensures r.Continue? && r.st.i == st.i
  {
    if LastTag(st.result) == LI && IsEmptyValue(tok.value) then Continue(st)
    else Continue(Emit(st, NewElement(Elements.Text, 0, false, TextValue(tok))))
  }

  /** The number of branches of the loop body. */
  const BranchCount := 12

  /** Branch `k` of the loop body, in the source's order. Every branch reads
      the token `$token` fetched at the top of the body. */
  function Branch(k: nat, toks: seq<Token>, tok: Token, st: State): (r: Step)
    requires k < BranchCount && InRange(toks, st)
    ensures Advances(toks, st, r) && (k == BranchCount - 1 ==> r.Continue?)
  {
    if k == 0 then DashListRule(toks, tok, st)
    else if k == 1 then DigitListRule(toks, tok, st)
    else if k == 2 then TableStartRule(toks, tok, st)
    else if k == 3 then TableCellRule(toks, tok, st)
    else if k == 4 then HeaderRule(toks, tok, st)
    else if k == 5 then EmphasisRule(toks, tok, st)
    else if k == 6 then QuoteRule(toks, tok, st)
    else if k == 7 then PreRule(toks, tok, st)
    else if k == 8 then LineEndRule(toks, tok, st)
    else if k == 9 then LinksRule(toks, tok, st)
    else if k == 10 then StrikeRule(toks, tok, st)
    else TextRule(toks, tok, st)
  }

  /** The loop body from branch `k` on. It is `TryBranch` at `k`; the two
      functions split the recursion so that a turn of the loop can be reasoned
      about without looking into the branches. */
  function DispatchFrom(toks: seq<Token>, tok: Token, st: State, k: nat): (r: Step)
    requires k < BranchCount && InRange(toks, st)
    ensures Advances(toks, st, r) && !r.FallThrough?
    decreases BranchCount - k, 1
  {
    TryBranch(toks, tok, st, k)
  }

  /** Branch `k`: if it does not fall through it decides, otherwise the later
      branches go on from the state it hands over. */
  function TryBranch(toks: seq<Token>, tok: Token, st: State, k: nat): (r: Step)
    requires k < BranchCount && InRange(toks, st)
    ensures Advances(toks, st, r) && !r.FallThrough?
    decreases BranchCount - k, 0
  {
    var r := Branch(k, toks, tok, st);
    if k == BranchCount - 1 || !r.FallThrough? then r
    else DispatchFrom(toks, tok, r.st, k + 1)
  }

  /** A branch that does not fall through, or the last one, decides. */
  lemma BranchDecides(toks: seq<Token>, tok: Token, st: State, k: nat)
    requires k < BranchCount && InRange(toks, st)
    requires k == BranchCount - 1 || !Branch(k, toks, tok, st).FallThrough?
    ensures TryBranch(toks, tok, st, k) == Branch(k, toks, tok, st)
  {
  }

  /** A branch that falls through hands its state to the next one. */
  lemma BranchFallsThrough(toks: seq<Token>, tok: Token, st: State, k: nat)
    requires k + 1 < BranchCount && InRange(toks, st) && Branch(k, toks, tok, st).FallThrough?
    ensures InRange(toks, Branch(k, toks, tok, st).st)
    ensures TryBranch(toks, tok, st, k) == TryBranch(toks, tok, Branch(k, toks, tok, st).st, k + 1)
  {
    assert DispatchFrom(toks, tok, Branch(k, toks, tok, st).st, k + 1) == TryBranch(toks, tok, Branch(k, toks, tok, st).st, k + 1);
  }

  /* Each branch in the chain of `Dispatch`: it decides unless it falls
     through, and then the next branch goes on from its state. Stated per rule
     so that the parser's methods need not look into `Branch`. */

  lemma DashListInChain(toks: seq<Token>, tok: Token, st: State)
    requires InRange(toks, st)
    ensures var r := DashListRule(toks, tok, st);
            TryBranch(toks, tok, st, 0) == if r.FallThrough? then TryBranch(toks, tok, r.st, 1) else r
  {
    BranchStep(toks, tok, st, 0);
  }

  lemma DigitListInChain(toks: seq<Token>, tok: Token, st: State)
    requires InRange(toks, st)
    ensures var r := DigitListRule(toks, tok, st);
            TryBranch(toks, tok, st, 1) == if r.FallThrough? then TryBranch(toks, tok, r.st, 2) else r
  {
    BranchStep(toks, tok, st, 1);
  }

  lemma TableStartInChain(toks: seq<Token>, tok: Token, st: State)
    requires InRange(toks, st)
    ensures var r := TableStartRule(toks, tok, st);
            TryBranch(toks, tok, st, 2) == if r.FallThrough? then TryBranch(toks, tok, r.st, 3) else r
  {
    BranchStep(toks, tok, st, 2);
  }

  lemma TableCellInChain(toks: seq<Token>, tok: Token, st: State)
    requires InRange(toks, st)
    ensures var r := TableCellRule(toks, tok, st);
            TryBranch(toks, tok, st, 3) == if r.FallThrough? then TryBranch(toks, tok, r.st, 4) else r
  {
    BranchStep(toks, tok, st, 3);
  }

  lemma HeaderInChain(toks: seq<Token>, tok: Token, st: State)
    requires InRange(toks, st)
    ensures var r := HeaderRule(toks, tok, st);
            TryBranch(toks, tok, st, 4) == if r.FallThrough? then TryBranch(toks, tok, r.st, 5) else r
  {
    BranchStep(toks, tok, st, 4);
  }

  lemma EmphasisInChain(toks: seq<Token>, tok: Token, st: State)
    requires InRange(toks, st)
    ensures var r := EmphasisRule(toks, tok, st);
            TryBranch(toks, tok, st, 5) == if r.FallThrough? then TryBranch(toks, tok, r.st, 6) else r
  {
    BranchStep(toks, tok, st, 5);
  }

  lemma QuoteInChain(toks: seq<Token>, tok: Token, st: State)
    requires InRange(toks, st)
    ensures var r := QuoteRule(toks, tok, st);
            TryBranch(toks, tok, st, 6) == if r.FallThrough? then TryBranch(toks, tok, r.st, 7) else r
  {
    BranchStep(toks, tok, st, 6);
  }

  lemma PreInChain(toks: seq<Token>, tok: Token, st: State)
    requires InRange(toks, st)
    ensures var r := PreRule(toks, tok, st);
            TryBranch(toks, tok, st, 7) == if r.FallThrough? then TryBranch(toks, tok, r.st, 8) else r
  {
    BranchStep(toks, tok, st, 7);
  }

  lemma LineEndInChain(toks: seq<Token>, tok: Token, st: State)
    requires InRange(toks, st)
    ensures var r := LineEndRule(toks, tok, st);
            TryBranch(toks, tok, st, 8) == if r.FallThrough? then TryBranch(toks, tok, r.st, 9) else r
  {
    BranchStep(toks, tok, st, 8);
  }

  lemma LinksInChain(toks: seq<Token>, tok: Token, st: State)
    requires InRange(toks, st)
    ensures var r := LinksRule(toks, tok, st);
            TryBranch(toks, tok, st, 9) == if r.FallThrough? then TryBranch(toks, tok, r.st, 10) else r
  {
    BranchStep(toks, tok, st, 9);
  }

  lemma StrikeInChain(toks: seq<Token>, tok: Token, st: State)
    requires InRange(toks, st)
    ensures var r := StrikeRule(toks, tok, st);
            TryBranch(toks, tok, st, 10) == if r.FallThrough? then TryBranch(toks, tok, r.st, 11) else r
  {
    BranchStep(toks, tok, st, 10);
  }

  /** The last branch, plain text, always decides. */
  lemma TextInChain(toks: seq<Token>, tok: Token, st: State)
    requires InRange(toks, st)
    ensures TryBranch(toks, tok, st, 11) == TextRule(toks, tok, st)
  {
    BranchDecides(toks, tok, st, 11);
  }

  /** Branch `k` before the last one: it decides, or hands over to `k + 1`. */
  lemma BranchStep(toks: seq<Token>, tok: Token, st: State, k: nat)
    requires k + 1 < BranchCount && InRange(toks, st)
    ensures var r := Branch(k, toks, tok, st);
            TryBranch(toks, tok, st, k) == if r.FallThrough? then TryBranch(toks, tok, r.st, k + 1) else r
  {
    if Branch(k, toks, tok, st).FallThrough? {
      BranchFallsThrough(toks, tok, st, k);
    }
  }

  /** The loop body on the token at the cursor. */
  function Dispatch(toks: seq<Token>, st: State): (r: Step)
    requires InRange(toks, st)
    ensures Advances(toks, st, r) && !r.FallThrough?
  {
    DispatchFrom(toks, toks[st.i], st, 0)
  }

  /** The `for` loop from the cursor of `st` to the end; each step is followed
      by the loop's `$i++`. */
  function Run(toks: seq<Token>, st: State): Result<seq<Element>>
    requires 0 <= st.i
    decreases |toks| - st.i, 1
  {
    if st.i >= |toks| then Ok(st.result) else Resume(toks, Dispatch(toks, st))
  }

  /** After the loop body: stop if it threw, else `$i++` and go on. */
  function Resume(toks: seq<Token>, r: Step): Result<seq<Element>>
    requires !r.Crash? ==> 0 <= r.st.i < |toks|
    decreases if r.Crash? then 0 else |toks| - r.st.i, 0
  {
    if r.Crash? then Err(r.error) else Run(toks, r.st.(i := r.st.i + 1))
  }

  /** One turn of the loop: a crash ends the run, any other outcome resumes it
      on the token after the one the body stopped at. */
  lemma RunTurn(toks: seq<Token>, st: State, r: Step)
    requires InRange(toks, st) && r == Dispatch(toks, st)
    ensures Run(toks, st) == Resume(toks, r)
  {
  }

  /** Unless the body threw, the loop goes on at the next token. */
  lemma ResumeNext(toks: seq<Token>, r: Step)
    requires !r.Crash? && 0 <= r.st.i < |toks|
    ensures Resume(toks, r) == Run(toks, r.st.(i := r.st.i + 1))
  {
  }

  /** `parse`: nothing for no tokens, else the loop and then `setLILevel`. */
  function ParseTokens(toks: seq<Token>): Result<seq<Element>> {
    if |toks| == 0 then Ok([])
    else
      match Run(toks, Init)
      case Err(e) => Err(e)
      case Ok(es) => SetLILevelSpec(es)
  }
}
