/** The font style the OOXML writer keeps while it walks the parsed elements:
    STRONG and EMPHASIS elements switch it between four named styles, and
    every TEXT run is written in the style current when it is reached. */
module FontStyle {
  import opened Elements

  /** `md-text`, `md-text-strong`, `md-text-italic`, `md-text-strong-italic`. */
  datatype Style = Plain | Bold | Italic | BoldItalic

  /** The style's name, as the writer stores it in `$fontStyle`. */
  function StyleName(s: Style): string {
    match s
    case Plain => "md-text"
    case Bold => "md-text-strong"
    case Italic => "md-text-italic"
    case BoldItalic => "md-text-strong-italic"
  }

  const StyleNames: set<string> := {"md-text", "md-text-strong", "md-text-italic", "md-text-strong-italic"}

  predicate IsBold(s: Style) { s == Bold || s == BoldItalic }

  predicate IsItalic(s: Style) { s == Italic || s == BoldItalic }

  /** Whether the style already shows what tag `t` asks for. */
  predicate Shows(s: Style, t: Tag) {
    (t == Strong && IsBold(s)) || (t == Emphasis && IsItalic(s))
  }

  /** What one element does to the style: opening STRONG always shows bold
      (keeping italic only from plain italic), closing it flips bold (keeping
      italic only from bold italic), and EMPHASIS likewise with the roles of
      bold and italic exchanged; other elements change nothing. */
  function Next(s: Style, e: Element): (r: Style)
    ensures e.tag == Strong && !e.close ==> IsBold(r) && (IsItalic(r) <==> s == Italic)
    ensures e.tag == Strong && e.close ==> (IsBold(r) <==> !IsBold(s)) && (IsItalic(r) <==> s == BoldItalic)
    ensures e.tag == Emphasis && !e.close ==> IsItalic(r) && (IsBold(r) <==> s == Bold)
    ensures e.tag == Emphasis && e.close ==> (IsItalic(r) <==> !IsItalic(s)) && (IsBold(r) <==> s == BoldItalic)
    ensures e.tag != Strong && e.tag != Emphasis ==> r == s
  {
    if e.tag == Strong then
      if e.close then (if s == Bold then Plain else if s == BoldItalic then Italic else Bold)
      else (if s == Italic then BoldItalic else Bold)
    else if e.tag == Emphasis then
      if e.close then (if s == Italic then Plain else if s == BoldItalic then Bold else Italic)
      else (if s == Bold then BoldItalic else Italic)
    else s
  }

  /** The style after a run of elements, starting from `s`. */
  function StyleAfter(s: Style, es: seq<Element>): Style
    decreases |es|
  {
    if |es| == 0 then s else Next(StyleAfter(s, es[..|es| - 1]), es[|es| - 1])
  }

  /** Distinct styles have distinct names, and every name is one of four. */
  lemma StyleNameInjective(a: Style, b: Style)
    ensures StyleName(a) in StyleNames
    ensures StyleName(a) == StyleName(b) <==> a == b
  {
  }

  /** The name of a style says which style it is. */
  lemma NameTells(s: Style)
    ensures StyleName(s) == "md-text-strong" <==> s == Bold
    ensures StyleName(s) == "md-text-italic" <==> s == Italic
    ensures StyleName(s) == "md-text-strong-italic" <==> s == BoldItalic
  {
  }

  /** A style is fixed by whether it shows bold and whether it shows italic. */
  lemma StyleIsTwoBits(a: Style, b: Style)
    ensures a == b <==> (IsBold(a) <==> IsBold(b)) && (IsItalic(a) <==> IsItalic(b))
  {
  }

  /** An open element followed by its close restores the style exactly when
      the style did not already show that tag. */
  lemma BalancedPairRestores(s: Style, t: Tag)
    requires t == Strong || t == Emphasis
    ensures Next(Next(s, Open(t)), Close(t)) == s <==> !Shows(s, t)
  {
  }

  /** A STRONG pair inside an open EMPHASIS returns to italic. */
  lemma StrongInsideEmphasis()
    ensures StyleAfter(Plain, [Open(Emphasis), Open(Strong), Close(Strong)]) == Italic
  {
    var es := [Open(Emphasis), Open(Strong), Close(Strong)];
    assert es[..2][..1] == [Open(Emphasis)];
    assert es[..2] == [Open(Emphasis), Open(Strong)];
    assert StyleAfter(Plain, es[..2][..1]) == Italic;
  }

  /** The style after two runs is the style after the first, carried through the second. */
  lemma {:induction false} StyleAfterAppend(s: Style, xs: seq<Element>, ys: seq<Element>)
    ensures StyleAfter(s, xs + ys) == StyleAfter(StyleAfter(s, xs), ys)
    decreases |ys|
  {
    if |ys| == 0 {
      assert xs + ys == xs;
    } else {
      var zs := xs + ys;
      assert zs[..|zs| - 1] == xs + ys[..|ys| - 1];
      StyleAfterAppend(s, xs, ys[..|ys| - 1]);
    }
  }

  /** Elements other than STRONG and EMPHASIS leave the style as it is. */
  lemma {:induction false} OtherTagsKeepStyle(s: Style, es: seq<Element>)
    requires forall k :: 0 <= k < |es| ==> es[k].tag != Strong && es[k].tag != Emphasis
    ensures StyleAfter(s, es) == s
    decreases |es|
  {
    if |es| > 0 {
      OtherTagsKeepStyle(s, es[..|es| - 1]);
    }
  }

  // ---------------------------------------------------------------------------
  // The writer's loop over the elements, as far as the TEXT runs and their
  // style go.

  /** What the loop keeps besides the cursor: the font style, whether a text
      run `$run` is set, and whether a table `$currentTable` is set. */
  datatype Writer = Writer(style: Style, run: bool, table: bool)

  const Start := Writer(Plain, false, false)

  /** One `$this->write($run, $element->value, $fontStyle)` of a TEXT element. */
  datatype Write = Write(value: string, style: string)

  /** What the loop does: the TEXT writes in order and the final `$fontStyle`,
      or `Hangs` when a link or cell scan runs past the last element. */
  datatype Rendering = Done(writes: seq<Write>, fontStyle: string) | Hangs

  /** The first index from `j` on whose element has tag `t`; `|es|` if none. */
  function FindTag(es: seq<Element>, j: nat, t: Tag): (r: nat)
    requires j <= |es|
    ensures j <= r <= |es|
    ensures r < |es| ==> es[r].tag == t
    ensures forall m :: j <= m < r ==> es[m].tag != t
    decreases |es| - j
  {
    if j == |es| || es[j].tag == t then j else FindTag(es, j + 1, t)
  }

  /** The first match is the one `FindTag` finds. */
  lemma {:induction false} FindTagAt(es: seq<Element>, j: nat, k: nat, t: Tag)
    requires j <= k < |es| && es[k].tag == t
    requires forall m :: j <= m < k ==> es[m].tag != t
    ensures FindTag(es, j, t) == k
    decreases k - j
  {
    if j < k {
      FindTagAt(es, j + 1, k, t);
    }
  }

  /** Where the URLCAPTION arm leaves the cursor: the closing caption, then
      the URL, its TEXT and the closing URL; `|es|` if one of them is missing. */
  function CaptionEnd(es: seq<Element>, i: nat): (r: nat)
    requires i < |es|
    ensures i < r <= |es|
  {
    var c := FindTag(es, i + 1, UrlCaption);
    var u := FindTag(es, c, Url);
    var t := FindTag(es, u, Text);
    FindTag(es, t, Url)
  }

  /** What an element does to the loop's state; the elements a link or cell
      arm jumps over are never passed here. */
  function Effect(w: Writer, e: Element): Writer {
    if e.tag == Strong || e.tag == Emphasis then w.(style := Next(w.style, e))
    else if e.tag == Header || e.tag == Pre || e.tag == Quote || e.tag == LI then w.(run := !e.close)
    else if e.tag == Text then w.(run := true)
    else if (e.tag == UL || e.tag == OL) && e.close then w.(run := false)
    else if e.tag == Table && !e.close then w.(table := true)
    else w
  }

  /** What one element writes: a TEXT element in the current style. */
  function Emitted(w: Writer, e: Element): seq<Write> {
    if e.tag == Text then [Write(e.value, StyleName(w.style))] else []
  }

  /** An opening URLCAPTION while a run is set, or an opening TABLECELL while
      a table is set: the arms that scan ahead and move the cursor. */
  predicate Jumps(w: Writer, e: Element) {
    !e.close && ((e.tag == UrlCaption && w.run) || (e.tag == TableCell && w.table))
  }

  /** Where the loop goes on after element `i`: past the link or the next
      cell for a jumping arm, the next element otherwise; `|es| + 1` when a
      scan runs past the last element. */
  function Resume(es: seq<Element>, i: nat, w: Writer): (r: nat)
    requires i < |es|
    ensures i < r <= |es| + 1
    ensures !Jumps(w, es[i]) ==> r == i + 1
  {
    var e := es[i];
    if Jumps(w, e) then
      (if e.tag == UrlCaption then CaptionEnd(es, i) else FindTag(es, i + 1, TableCell)) + 1
    else i + 1
  }

  /** The loop from element `i` on, with state `w` and the writes `out` so far. */
  function Walk(es: seq<Element>, i: nat, w: Writer, out: seq<Write>): Rendering
    requires i <= |es|
    decreases |es| - i
  {
    if i == |es| then Done(out, StyleName(w.style))
    else
      var n := Resume(es, i, w);
      if n > |es| then Hangs else Walk(es, n, Effect(w, es[i]), out + Emitted(w, es[i]))
  }

  function Render(es: seq<Element>): Rendering {
    Walk(es, 0, Start, [])
  }

  /** The TEXT writes the plain fold gives: each TEXT element in the style the
      elements before it leave. */
  function FoldedWrites(es: seq<Element>): seq<Write>
    decreases |es|
  {
    if |es| == 0 then []
    else
      var n := |es| - 1;
      FoldedWrites(es[..n]) + (if es[n].tag == Text then [Write(es[n].value, StyleName(StyleAfter(Plain, es[..n])))] else [])
  }

  predicate NoLinkOrCell(es: seq<Element>) {
    forall k :: 0 <= k < |es| ==> es[k].tag != UrlCaption && es[k].tag != TableCell
  }

  /** Without link captions and table cells nothing is skipped: the writer
      writes every TEXT element in the style the elements before it leave,
      and ends on the style of the whole sequence. */
  lemma WithoutLinksOrCells(es: seq<Element>)
    requires NoLinkOrCell(es)
    ensures Render(es) == Done(FoldedWrites(es), StyleName(StyleAfter(Plain, es)))
  {
    WalkFolds(es, 0, Start);
  }

  lemma {:induction false} WalkFolds(es: seq<Element>, i: nat, w: Writer)
    requires i <= |es| && NoLinkOrCell(es) && w.style == StyleAfter(Plain, es[..i])
    ensures Walk(es, i, w, FoldedWrites(es[..i])) == Done(FoldedWrites(es), StyleName(StyleAfter(Plain, es)))
    decreases |es| - i
  {
    if i == |es| {
      assert es[..i] == es;
    } else {
      var e := es[i];
      var out := FoldedWrites(es[..i]);
      assert e.tag != UrlCaption && e.tag != TableCell;
      assert es[..i + 1][..i] == es[..i];
      assert es[..i + 1][i] == e;
      assert StyleAfter(Plain, es[..i + 1]) == Next(w.style, e);
      if e.tag == Text {
        assert FoldedWrites(es[..i + 1]) == out + [Write(e.value, StyleName(w.style))];
        assert Walk(es, i, w, out) == Walk(es, i + 1, Effect(w, e), out + [Write(e.value, StyleName(w.style))]);
      } else {
        assert FoldedWrites(es[..i + 1]) == out;
        assert Walk(es, i, w, out) == Walk(es, i + 1, Effect(w, e), out);
      }
      WalkFolds(es, i + 1, Effect(w, e));
    }
  }

  /** The elements of `x [*a](u) b` for words `x`, `a`, `u` and `b`: an
      emphasis marker opened inside a link caption and never closed. */
  function LinkWithEmphasis(x: string, a: string, u: string, b: string): seq<Element> {
    [NewElement(Text, 0, false, x), NewElement(Text, 0, false, " "),
     NewElement(UrlCaption, 0, false, "["), Open(Emphasis),
     NewElement(Text, 0, false, a), NewElement(UrlCaption, 0, true, "]"),
     NewElement(Url, 0, false, "("), NewElement(Text, 0, false, u),
     NewElement(Url, 0, true, ")"), NewElement(Text, 0, false, " "),
     NewElement(Text, 0, false, b)]
  }

  /** The emphasis marker inside the caption never reaches the switch: the
      words after the link are written plain. */
  lemma CaptionHidesEmphasis(x: string, a: string, u: string, b: string)
    ensures Render(LinkWithEmphasis(x, a, u, b))
         == Done([Write(x, "md-text"), Write(" ", "md-text"), Write(" ", "md-text"), Write(b, "md-text")], "md-text")
  {
    var es := LinkWithEmphasis(x, a, u, b);
    var wx, sp := Write(x, "md-text"), Write(" ", "md-text");
    LinkWithEmphasisHead(x, a, u, b);
    LinkWithEmphasisEnd(x, a, u, b);
    WalkStep(es, 2, Writer(Plain, true, false), [wx, sp]);
    assert [wx, sp] + [] == [wx, sp];
    LinkWithEmphasisTail(x, a, u, b);
  }

  /** The link in `x [*a](u) b` ends at its closing URL, element 8. */
  lemma LinkWithEmphasisEnd(x: string, a: string, u: string, b: string)
    ensures CaptionEnd(LinkWithEmphasis(x, a, u, b), 2) == 8
  {
    var es := LinkWithEmphasis(x, a, u, b);
    FindTagAt(es, 3, 5, UrlCaption);
    FindTagAt(es, 5, 6, Url);
    FindTagAt(es, 6, 7, Text);
    FindTagAt(es, 7, 8, Url);
  }

  /** Up to the link: `x` and the blank are written and a run is set. */
  lemma LinkWithEmphasisHead(x: string, a: string, u: string, b: string)
    ensures Render(LinkWithEmphasis(x, a, u, b))
         == Walk(LinkWithEmphasis(x, a, u, b), 2, Writer(Plain, true, false), [Write(x, "md-text"), Write(" ", "md-text")])
  {
    var es := LinkWithEmphasis(x, a, u, b);
    var wx, sp := Write(x, "md-text"), Write(" ", "md-text");
    WalkStep(es, 0, Start, []);
    WalkStep(es, 1, Writer(Plain, true, false), [wx]);
    assert [] + [wx] == [wx] && [wx] + [sp] == [wx, sp];
  }

  /** After the link: the blank and `b` are written plain. */
  lemma LinkWithEmphasisTail(x: string, a: string, u: string, b: string)
    ensures Walk(LinkWithEmphasis(x, a, u, b), 9, Writer(Plain, true, false), [Write(x, "md-text"), Write(" ", "md-text")])
         == Done([Write(x, "md-text"), Write(" ", "md-text"), Write(" ", "md-text"), Write(b, "md-text")], "md-text")
  {
    var es := LinkWithEmphasis(x, a, u, b);
    var w := Writer(Plain, true, false);
    var wx, sp, wb := Write(x, "md-text"), Write(" ", "md-text"), Write(b, "md-text");
    WalkStep(es, 9, w, [wx, sp]);
    WalkStep(es, 10, w, [wx, sp, sp]);
    assert [wx, sp] + [sp] == [wx, sp, sp] && [wx, sp, sp] + [wb] == [wx, sp, sp, wb];
  }

  /** The plain fold over the same elements, which knows nothing of jumps,
      ends in italic: the fold alone does not describe the writer. */
  lemma FoldSeesEmphasis(x: string, a: string, u: string, b: string)
    ensures StyleAfter(Plain, LinkWithEmphasis(x, a, u, b)) == Italic
  {
    var es := LinkWithEmphasis(x, a, u, b);
    OtherTagsKeepStyle(Plain, es[..3]);
    assert es[..4][..3] == es[..3];
    assert StyleAfter(Plain, es[..4]) == Italic;
    OtherTagsKeepStyle(Italic, es[4..]);
    StyleAfterAppend(Plain, es[..4], es[4..]);
    assert es[..4] + es[4..] == es;
  }

  /** The elements of `x [a] b`: a caption with no URL after it. */
  function CaptionWithoutUrl(x: string, a: string, b: string): seq<Element> {
    [NewElement(Text, 0, false, x), NewElement(Text, 0, false, " "),
     NewElement(UrlCaption, 0, false, "["), NewElement(Text, 0, false, a),
     NewElement(UrlCaption, 0, true, "]"), NewElement(Text, 0, false, " "),
     NewElement(Text, 0, false, b)]
  }

  /** Once a run is set, a caption not followed by a URL sends the writer's
      scan past the last element. */
  lemma CaptionWithoutUrlHangs(x: string, a: string, b: string)
    ensures Render(CaptionWithoutUrl(x, a, b)) == Hangs
  {
    var es := CaptionWithoutUrl(x, a, b);
    var w := Writer(Plain, true, false);
    var wx, sp := Write(x, "md-text"), Write(" ", "md-text");
    FindTagAt(es, 3, 4, UrlCaption);
    assert FindTag(es, 4, Url) == 7;
    WalkStep(es, 0, Start, []);
    WalkStep(es, 1, w, [] + [wx]);
    WalkStep(es, 2, w, [] + [wx] + [sp]);
  }

  /** One turn of the loop: hang, or go on from where the arm leaves the cursor. */
  lemma WalkStep(es: seq<Element>, i: nat, w: Writer, out: seq<Write>)
    requires i < |es|
    ensures Resume(es, i, w) > |es| ==> Walk(es, i, w, out) == Hangs
    ensures Resume(es, i, w) <= |es| ==> Walk(es, i, w, out) == Walk(es, Resume(es, i, w), Effect(w, es[i]), out + Emitted(w, es[i]))
  {
  }

  /** The STRONG and EMPHASIS arms of the writer's switch: string comparisons
      on `$fontStyle` that move it as `Next` moves the style it names. */
  method SwitchStyle(ghost s: Style, fontStyle: string, element: Element) returns (r: string)
    requires element.tag == Strong || element.tag == Emphasis
    requires fontStyle == StyleName(s)
    ensures r == StyleName(Next(s, element))
  {
    NameTells(s);
    if element.tag == Strong {
      if element.close {
        if fontStyle == "md-text-strong" {
          r := "md-text";
        } else if fontStyle == "md-text-strong-italic" {
          r := "md-text-italic";
        } else {
          r := "md-text-strong";
        }
      } else {
        if fontStyle == "md-text-italic" {
          r := "md-text-strong-italic";
        } else {
          r := "md-text-strong";
        }
      }
    } else {
      if element.close {
        if fontStyle == "md-text-italic" {
          r := "md-text";
        } else if fontStyle == "md-text-strong-italic" {
          r := "md-text-strong";
        } else {
          r := "md-text-italic";
        }
      } else {
        if fontStyle == "md-text-strong" {
          r := "md-text-strong-italic";
        } else {
          r := "md-text-italic";
        }
      }
    }
  }

  /** The arms of the writer's switch that do not jump: the style arms, the
      arms that set or clear the text run and the table, and the TEXT arm,
      which writes the element in the current style. */
  method Arm(ghost s: Style, fontStyle: string, run: bool, table: bool, element: Element)
    returns (newStyle: string, newRun: bool, newTable: bool, write: seq<Write>)
    requires fontStyle == StyleName(s)
    ensures newStyle == StyleName(Next(s, element))
    ensures Writer(Next(s, element), newRun, newTable) == Effect(Writer(s, run, table), element)
    ensures write == Emitted(Writer(s, run, table), element)
  {
    newStyle, newRun, newTable, write := fontStyle, run, table, [];
    if element.tag == Strong || element.tag == Emphasis {
      newStyle := SwitchStyle(s, fontStyle, element);
    } else if element.tag == Header || element.tag == Pre || element.tag == Quote || element.tag == LI {
      newRun := !element.close;
    } else if element.tag == Text {
      write := [Write(element.value, fontStyle)];
      newRun := true;
    } else if (element.tag == UL || element.tag == OL) && element.close {
      newRun := false;
    } else if element.tag == Table && !element.close {
      newTable := true;
    }
  }

  /** The writer's `for` loop with its switch: the arms above, and the inner
      `while` scans of its URLCAPTION and TABLECELL arms, which move the
      cursor past the elements they read. */
  method Output(elements: seq<Element>) returns (r: Rendering)
    ensures r == Render(elements)
  {
    var fontStyle := "md-text";
    var run := false;
    var table := false;
    var writes: seq<Write> := [];
    ghost var style := Plain;
    var i := 0;
    while i < |elements|
      invariant 0 <= i <= |elements|
      invariant fontStyle == StyleName(style)
      invariant Walk(elements, i, Writer(style, run, table), writes) == Render(elements)
      decreases |elements| - i
    {
      var element := elements[i];
      ghost var w := Writer(style, run, table);
      ghost var before := writes;
      var next;
      if element.tag == UrlCaption && run && !element.close {
        next := SkipCaption(elements, i);
        next := next + 1;
      } else if element.tag == TableCell && table && !element.close {
        next := SkipTo(elements, i + 1, TableCell);
        next := next + 1;
      } else {
        var write;
        fontStyle, run, table, write := Arm(style, fontStyle, run, table, element);
        writes := writes + write;
        style := Next(style, element);
        next := i + 1;
      }
      assert next == Resume(elements, i, w) && Writer(style, run, table) == Effect(w, element);
      assert writes == before + Emitted(w, element);
      WalkStep(elements, i, w, before);
      if next > |elements| {
        return Hangs;
      }
      i := next;
    }
    r := Done(writes, fontStyle);
  }

  /** The four scans of the URLCAPTION arm: to the closing caption, the URL,
      its TEXT and the closing URL. */
  method SkipCaption(es: seq<Element>, i: nat) returns (j: nat)
    requires i < |es|
    ensures j == CaptionEnd(es, i)
  {
    j := SkipTo(es, i + 1, UrlCaption);
    j := SkipTo(es, j, Url);
    j := SkipTo(es, j, Text);
    j := SkipTo(es, j, Url);
  }

  /** One `while ($elements[$i + $j]->tag !== t) { $j++; }` scan, stopped at
      the end of the elements. */
  method SkipTo(es: seq<Element>, from: nat, t: Tag) returns (j: nat)
    requires from <= |es|
    ensures j == FindTag(es, from, t)
  {
    j := from;
    while j < |es| && es[j].tag != t
      invariant from <= j <= |es|
      invariant FindTag(es, j, t) == FindTag(es, from, t)
      decreases |es| - j
    {
      j := j + 1;
    }
  }
}
