/** The parser's output vocabulary: element tags, the element record and the
    run-time errors the PHP code raises. */
module Elements {

  /** Every case of the source's `TagType` enumeration, in declaration order.
      `NoTag` is NONE; `Paragraph`, `Reference`, `ReferenceUrl` and `Code` are
      never produced by the parser. */
  datatype Tag =
    | NoTag | EmptyLine | Strong | Emphasis | Header | Paragraph | Pre | Quote
    | Text | UL | OL | LI | LineBreak | UrlCaption | Url | Reference | ReferenceUrl
    | Code | Table | TableHeader | TableRow | TableCell | Strikethrough

  /** An `MDElement`: its tag, its level (header level, list indentation),
      whether it closes its tag, its text, and the `block` flag. */
  datatype Element = Element(tag: Tag, level: int, close: bool, value: string, block: bool)

  /** Tags the `MDElement` constructor marks as blocks. */
  predicate IsBlockTag(t: Tag) {
    t == Paragraph || t == Code || t == Header || t == Pre || t == Quote || t == UL || t == OL
  }

  /** `new MDElement(tag, level, close, value)`: the constructor derives `block` from the tag. */
  function NewElement(tag: Tag, level: int, close: bool, value: string): Element {
    Element(tag, level, close, value, IsBlockTag(tag))
  }

  /** An element with only a tag, as in `new MDElement(TagType::X)`. */
  function Open(tag: Tag): Element {
    NewElement(tag, 0, false, "")
  }

  /** A closing element with level 0, as in `new MDElement(TagType::X, 0, true)`. */
  function Close(tag: Tag): Element {
    NewElement(tag, 0, true, "")
  }

  /** The run-time errors of the PHP code: `peek_next_token_type` at the last index
      returns `TagType::NONE` where its return type is `Token`, and `setLILevel`
      assigns `array_search`'s `false` to the typed `int` property `level` under
      `strict_types`. Both are `TypeError`s that abort `parse`. */
  datatype ParseError = NextTokenTypeError(index: int) | LevelTypeError(index: int)

  datatype Result<T> = Ok(value: T) | Err(error: ParseError)
}
