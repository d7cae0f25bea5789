/** The parser's look-behind and look-ahead helpers over the token sequence
    (src/parse.php:239-304) and over its own output (src/parse.php:326-362). */
module Scan {
  import opened Tokens
  import opened Elements

  /** Index of the nearest token before `i` that is not WS or TAB, or -1. */
  function PrevNonBlank(toks: seq<Token>, i: int): (p: int)
    requires 0 <= i <= |toks|
    ensures -1 <= p < i
  {
    if i == 0 then -1
    else if IsBlank(toks[i - 1].kind) then PrevNonBlank(toks, i - 1)
    else i - 1
  }

  /** Only blanks lie between the nearest non-blank predecessor and `i`. */
  lemma {:induction false} PrevNonBlankMeans(toks: seq<Token>, i: int)
    requires 0 <= i <= |toks|
    ensures forall k :: PrevNonBlank(toks, i) < k < i ==> IsBlank(toks[k].kind)
    ensures PrevNonBlank(toks, i) >= 0 ==> !IsBlank(toks[PrevNonBlank(toks, i)].kind)
    decreases i
  {
    if i > 0 && IsBlank(toks[i - 1].kind) {
      PrevNonBlankMeans(toks, i - 1);
    }
  }

  /** Beginning of line: the first position, or one whose nearest non-blank
      predecessor is a line end. Blank-only context back to the start is not. */
  predicate Bol(toks: seq<Token>, i: int)
    requires 0 <= i <= |toks|
  {
    i == 0 || (PrevNonBlank(toks, i) >= 0 && toks[PrevNonBlank(toks, i)].kind == Ln)
  }

  /** `is_beginning_of_line`: the backward scan over whitespace. */
  method IsBeginningOfLine(toks: seq<Token>, index: int) returns (b: bool)
    requires 0 <= index <= |toks|
    ensures b == Bol(toks, index)
  {
    if index == 0 {
      return true;
    }
    var beforeType := Kind.Text;
    var offset := index - 1;
    while offset >= 0
      invariant -1 <= offset < index
      invariant forall k :: offset < k < index ==> IsBlank(toks[k].kind)
      invariant offset < index - 1 ==> beforeType == toks[offset + 1].kind
      invariant PrevNonBlank(toks, index) == PrevNonBlank(toks, offset + 1)
    {
      beforeType := toks[offset].kind;
      if beforeType != Ws && beforeType != Tab {
        break;
      }
      offset := offset - 1;
    }
    b := beforeType == Ln;
  }

  /** The positional reading of `Bol`: a line end with only blanks after it. */
  lemma BolWitness(toks: seq<Token>, i: int)
    requires 0 < i <= |toks|
    ensures Bol(toks, i) <==> exists j :: 0 <= j < i && toks[j].kind == Ln
                                   && forall k :: j < k < i ==> IsBlank(toks[k].kind)
  {
    var p := PrevNonBlank(toks, i);
    PrevNonBlankMeans(toks, i);
    if exists j :: 0 <= j < i && toks[j].kind == Ln && forall k :: j < k < i ==> IsBlank(toks[k].kind) {
      var j :| 0 <= j < i && toks[j].kind == Ln && forall k :: j < k < i ==> IsBlank(toks[k].kind);
      assert p >= j by {
        assert !IsBlank(toks[j].kind);
      }
    }
  }

  /** Total width (sum of counts) of the blank tokens right before `i`. */
  function LeadingWidth(toks: seq<Token>, i: int): (w: nat)
    requires 0 <= i <= |toks|
  {
    if i == 0 || !IsBlank(toks[i - 1].kind) then 0
    else toks[i - 1].count + LeadingWidth(toks, i - 1)
  }

  /** Sum of the counts of `toks[lo..hi]`. */
  function CountSum(toks: seq<Token>, lo: int, hi: int): int
    requires 0 <= lo <= hi <= |toks|
    decreases hi - lo
  {
    if lo == hi then 0 else toks[lo].count + CountSum(toks, lo + 1, hi)
  }

  /** `count_beginning_of_line_ws`: the backward sum over whitespace. */
  method CountBeginningOfLineWs(toks: seq<Token>, index: int) returns (count: int)
    requires 0 <= index <= |toks|
    ensures count == LeadingWidth(toks, index)
    ensures count == CountSum(toks, PrevNonBlank(toks, index) + 1, index)
  {
    count := 0;
    var offset := index - 1;
    while offset >= 0 && |toks| > offset
      invariant -1 <= offset < index
      invariant count + LeadingWidth(toks, offset + 1) == LeadingWidth(toks, index)
    {
      if toks[offset].kind != Ws && toks[offset].kind != Tab {
        break;
      }
      count := count + toks[offset].count;
      offset := offset - 1;
    }
    LeadingWidthIsRunSum(toks, index);
  }

  lemma {:induction false} LeadingWidthIsRunSum(toks: seq<Token>, i: int)
    requires 0 <= i <= |toks|
    ensures LeadingWidth(toks, i) == CountSum(toks, PrevNonBlank(toks, i) + 1, i)
    decreases i
  {
    if i > 0 && IsBlank(toks[i - 1].kind) {
      LeadingWidthIsRunSum(toks, i - 1);
      CountSumSnoc(toks, PrevNonBlank(toks, i) + 1, i - 1);
    }
  }

  lemma {:induction false} CountSumSnoc(toks: seq<Token>, lo: int, hi: int)
    requires 0 <= lo <= hi < |toks|
    ensures CountSum(toks, lo, hi + 1) == CountSum(toks, lo, hi) + toks[hi].count
    decreases hi - lo
  {
    if lo < hi {
      CountSumSnoc(toks, lo + 1, hi);
    }
  }

  /** `peek_previous_token_type`. */
  function PrevKind(toks: seq<Token>, i: int): Kind
    requires i <= |toks|
  {
    if i - 1 < 0 then NoToken else toks[i - 1].kind
  }

  /** `peek_next_token_type`: the kind of the next token; at the last index the
      source returns a `TagType` where a `Token` is declared, a `TypeError`. */
  function NextKind(toks: seq<Token>, i: int): (r: Result<Kind>)
    requires 0 <= i
    ensures r.Err? <==> i + 1 >= |toks|
    ensures r.Ok? ==> r.value == toks[i + 1].kind
    ensures r.Err? ==> r.error == NextTokenTypeError(i)
  {
    if i + 1 >= |toks| then Err(NextTokenTypeError(i)) else Ok(toks[i + 1].kind)
  }

  /** Index of the first token at or after `j` that is not WS or TAB (`|toks|` if none). */
  function FirstNonBlankFrom(toks: seq<Token>, j: int): (r: int)
    requires 0 <= j <= |toks|
    ensures j <= r <= |toks|
    decreases |toks| - j
  {
    if j == |toks| || !IsBlank(toks[j].kind) then j else FirstNonBlankFrom(toks, j + 1)
  }

  /** Only blanks lie between `j` and the first non-blank token from `j`. */
  lemma {:induction false} FirstNonBlankMeans(toks: seq<Token>, j: int)
    requires 0 <= j <= |toks|
    ensures forall k :: j <= k < FirstNonBlankFrom(toks, j) ==> IsBlank(toks[k].kind)
    ensures FirstNonBlankFrom(toks, j) < |toks| ==> !IsBlank(toks[FirstNonBlankFrom(toks, j)].kind)
    decreases |toks| - j
  {
    if j < |toks| && IsBlank(toks[j].kind) {
      FirstNonBlankMeans(toks, j + 1);
    }
  }

  /** `peek_at_next_non_ws_token_type`: the kind of the first non-blank token after
      `i`, or NONE when only blanks follow. */
  function NextNonBlankKind(toks: seq<Token>, i: int): Kind
    requires 0 <= i < |toks|
  {
    var r := FirstNonBlankFrom(toks, i + 1);
    if r >= |toks| then NoToken else toks[r].kind
  }

  /** `is_forward_tokens_list`. It compares whole token records with `Token`
      cases using `===`, which never holds, so it always answers false. */
  function IsForwardTokensList(toks: seq<Token>, i: int): bool {
    false
  }

  /** The ASCII whitespace that PCRE's `\s` matches: space, TAB, LF, VT, FF, CR. */
  predicate IsPcreSpace(c: char) {
    c == ' ' || c == '\t' || c == '\n' || c == '\U{0B}' || c == '\U{0C}' || c == '\r'
  }

  /** `isEmptyValue`: the value is only whitespace (the regex `^[ \s\t\n\r\n]*$`). */
  predicate IsEmptyValue(v: string) {
    forall k :: 0 <= k < |v| ==> IsPcreSpace(v[k])
  }

  /** A character the delimiter-row regex excludes: ':' or '-' or whitespace. */
  predicate IsDelimiterChar(c: char) {
    c == ':' || c == '-' || IsPcreSpace(c)
  }

  predicate NoDelimiterChar(v: string) {
    forall k :: 0 <= k < |v| ==> !IsDelimiterChar(v[k])
  }

  /** The regex `^[^\:\-\s]*$` matches: no ':' , '-' or whitespace, except that
      PCRE's `$` also matches before one final "\n". */
  predicate IsNonDelimiterCell(v: string) {
    NoDelimiterChar(v) || (|v| > 0 && v[|v| - 1] == '\n' && NoDelimiterChar(v[..|v| - 1]))
  }

  /** The reference reading of `is_previous_tablerow_delimiter_row`, scanning
      down from `offset`: -1 on a TEXT element that cannot be a delimiter cell,
      else the index of the nearest TABLEROW element (or -1 when none). */
  function DelimiterRowFrom(es: seq<Element>, offset: int): (r: int)
    requires offset < |es|
    ensures r == -1 || (0 <= r <= offset && es[r].tag == TableRow) || (offset < -1 && r == offset)
    decreases offset + 1
  {
    if offset < 0 then offset
    else if es[offset].tag == TableRow then offset
    else if es[offset].tag == Elements.Text && IsNonDelimiterCell(es[offset].value) then -1
    else DelimiterRowFrom(es, offset - 1)
  }

  /** `is_previous_tablerow_delimiter_row(elements, index)`: 0 for index 0 gives
      -1; otherwise the scan starts below `index - 1`. */
  function DelimiterRow(es: seq<Element>, index: int): int
    requires index < |es|
  {
    if index == 0 then -1 else DelimiterRowFrom(es, index - 1)
  }

  /** `is_previous_tablerow_delimiter_row`: the backward scan. */
  method IsPreviousTableRowDelimiterRow(es: seq<Element>, index: int) returns (r: int)
    requires index < |es|
    ensures r == DelimiterRow(es, index)
  {
    if index == 0 {
      return -1;
    }
    var offset := index - 1;
    while offset >= 0 && es[offset].tag != TableRow
      invariant offset <= index - 1
      invariant DelimiterRowFrom(es, offset) == DelimiterRowFrom(es, index - 1)
    {
      if es[offset].tag == Elements.Text {
        if IsNonDelimiterCell(es[offset].value) {
          return -1;
        }
      }
      offset := offset - 1;
    }
    return offset;
  }

  /** A found delimiter row is the nearest TABLEROW below `index`, and every
      element between is neither a row nor a TEXT that is a plain cell. */
  lemma DelimiterRowMeans(es: seq<Element>, index: int)
    requires 0 <= index < |es|
    ensures var r := DelimiterRow(es, index);
            r != -1 ==>
              0 <= r < index && es[r].tag == TableRow
              && forall k :: r < k < index ==>
                   es[k].tag != TableRow && (es[k].tag == Elements.Text ==> !IsNonDelimiterCell(es[k].value))
  {
    if index > 0 {
      DelimiterRowFromMeans(es, index - 1);
    }
  }

  lemma {:induction false} DelimiterRowFromMeans(es: seq<Element>, offset: int)
    requires -1 <= offset < |es|
    ensures var r := DelimiterRowFrom(es, offset);
            r != -1 ==>
              0 <= r <= offset && es[r].tag == TableRow
              && forall k :: r < k <= offset ==>
                   es[k].tag != TableRow && (es[k].tag == Elements.Text ==> !IsNonDelimiterCell(es[k].value))
    decreases offset + 1
  {
    if offset >= 0 && es[offset].tag != TableRow
       && !(es[offset].tag == Elements.Text && IsNonDelimiterCell(es[offset].value))
    {
      DelimiterRowFromMeans(es, offset - 1);
    }
  }
}
