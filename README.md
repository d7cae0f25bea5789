# md-parse in Dafny

This project models the front end of md-parse, a small PHP library that turns a
Markdown-like text into an OOXML (Word) document. The modelled core has four parts:

- **The lexer `tokenize`.** It reads the text one code point at a time and gives each
  character a token kind from the `Token` enumeration. It merges runs of blanks and
  marker characters, digits and plain text into the previous token.
- **The parser `parse`.** One `for` loop walks the token array. Each turn of the loop
  tries twelve groups of branches in a fixed order: dash list, numbered list, table
  start, table cell, ATX header, emphasis/strong, quote, preformatted block, line end,
  links, strikethrough, text. The loop appends `MDElement` records to `$result` and
  sometimes edits the tail of `$result`. It keeps a set of open tags in `$opened`. It
  also keeps an `expectURL` flag and a cursor `$i` that some branches move forward.
- **`setLILevel`.** Once the loop is done, this pass rewrites the indentation widths of
  list items. Each width becomes its rank among the distinct widths of its list, so
  widths 0, 4, 2 become 0, 2, 1.
- **The OOXML writer's loop.** The writer walks the elements. Its STRONG and EMPHASIS
  arms move `$fontStyle` between four named styles. Every TEXT element it reaches is
  written in the current style. Its link-caption and table-cell arms scan ahead and
  move the cursor past the elements they read, so those elements never reach the
  style arms.

How each part is modelled:

- **Lexer** (`Lexer`, `LexerProperties`). `Tokenize` is an imperative loop. It is
  proved to produce a *lexing* of its input: well-formed maximal runs that spell the
  input out exactly. Lexings are proved unique, so that relation fully determines the
  output.
- **Parser, as pure functions** (`ParseSpec`). Each branch of the loop body is a pure
  function from the loop state to a step: continue, fall through to the next branch,
  or a PHP `TypeError`. `Dispatch` is the loop body, `Run` is the loop, and
  `ParseTokens` is `parse`.
- **Parser, as a class** (`Parser`). `MarkdownParser` holds the same state in fields.
  It runs the branches as methods that update the fields in place. Each method is
  proved equal to its `ParseSpec` function, and `Parser.Parse` is proved to compute
  `ParseTokens`.
- **Parser properties** (`ParseProperties`). Lemmas over the pure functions: no tag is
  ever opened twice, what a line end closes, how emphasis markers resolve, how tables
  turn a delimiter row into a header, and how quote and preformatted lines continue.
- **Helpers of the parser** (`Scan`, `OpenTags`). The look-behind and look-ahead
  helpers, and the open-tag set helpers. The loop helpers are written as methods next
  to the functions that specify them.
- **`setLILevel`** (`ListLevels`). A method over an `array` of elements, proved equal
  to a pure pass. For a list with no other UL or OL inside it, lemmas show the pass
  gives each item the number of distinct smaller widths in that list. A list that
  holds another list is re-levelled as written, and it can throw.
- **End to end** (`Pipeline`). Lemmas that run lexing and parsing together.
- **OOXML writer** (`FontStyle`). The writer's loop as a method, `Output`. It is proved
  to compute `Render`, a pure walk over the elements. `Render` records each TEXT write
  with its style name, follows the jumps of the link and cell arms, and gives `Hangs`
  when a scan runs past the last element. Lemmas relate `Render` to the plain style
  fold `StyleAfter`. It is the same when there are no links or cells, and it differs
  when an emphasis marker sits inside a link caption.

## Model

| member | source | states |
|---|---|---|
| `Lexer.Tokenize` | src/tokenize.php:10-204 | The output is a lexing of the input text: every token is well formed, no two neighbours could have been merged, and the tokens' sources concatenate back to the text exactly. The output has at most one slot per character. |
| `LexerProperties.LexingIsUnique` | src/tokenize.php:16-202 | Two lexings of the same text are equal, so `Tokenize`'s contract determines its output. |
| `LexerProperties.FirstSlotDetermined` | src/tokenize.php:16-202 | Two lexings of one text start with the same slot. |
| `LexerProperties.FirstRunIsMaximal` | src/tokenize.php:24-37 | A runnable first token swallows the whole leading run of characters of its kind. |
| `LexerProperties.LexedTail` | src/tokenize.php:16-202 | Dropping the first slot of a lexing leaves a lexing of the rest of the text. |
| `LexerProperties.SlotCountBound` | src/tokenize.php:16-202 | A lexing has at most as many slots as the text has characters, and is empty exactly for the empty text. |
| `LexerProperties.HoleIffZero` | src/tokenize.php:18-20 | An index is left empty exactly when the text contains the character '0'. |
| `LexerProperties.TokenShapes` | src/tokenize.php:21-198 | The token shapes the lexer can emit: a non-runnable token is one character of its own kind; a line end is "\n" or "\r"; a blank or marker run keeps one character and counts its repeats; a digit or text run keeps every character; no token contains '0'. |
| `LexerProperties.ExpansionOfKind` | src/tokenize.php:21-198 | A well-formed token stands for `count` characters, all of its kind. |
| `LexerProperties.SourceShape` | src/tokenize.php:16-202 | Every slot stands for at least one character, and a slot is a hole exactly when that character is '0'. |
| `LexerProperties.RunLength` | src/tokenize.php:24-37 | The length of the leading run of one kind never exceeds the text. |
| `LexerProperties.RunLengthOfPrefix` | src/tokenize.php:24-37 | A run of kind `k` followed by a character of another kind has exactly its own length as the leading run. |
| `Scan.PrevNonBlank` | src/parse.php:255-266 | The index found lies before the starting index (or is -1). |
| `Scan.PrevNonBlankMeans` | src/parse.php:255-266 | Every token between the index found and the start is blank, and the token found is not. |
| `Scan.IsBeginningOfLine` | src/parse.php:239-253 | The method's backward loop answers `Bol`: the index is 0, or the nearest non-blank token before it is a line break (blanks back to the start of the input do not count). |
| `Scan.BolWitness` | src/parse.php:239-253 | Past the first token, a position begins a line exactly when some line break before it is followed only by blanks up to it. |
| `Scan.CountBeginningOfLineWs` | src/parse.php:255-266 | The method's loop returns the total `count` of the blank run just before the index, that is, the sum of counts from the previous non-blank token on. |
| `Scan.LeadingWidthIsRunSum` | src/parse.php:255-266 | The recursive width of the leading blanks equals the sum of counts over the blank run. |
| `Scan.NextKind` | src/parse.php:275-280 | Asking for the next token type fails exactly at the last index, with the `TypeError` of that index; otherwise it is the next token's kind. |
| `Scan.FirstNonBlankFrom` | src/parse.php:282-292 | The index found lies at or after the start and at most at the end. |
| `Scan.FirstNonBlankMeans` | src/parse.php:282-292 | Every token before the index found is blank, and the token found (if any) is not. |
| `Scan.DelimiterRowFrom` | src/parse.php:339-354 | The backward search yields -1 or the index of a TABLEROW element at or before the offset. |
| `Scan.IsPreviousTableRowDelimiterRow` | src/parse.php:339-354 | The method's loop computes `DelimiterRow`. |
| `Scan.DelimiterRowMeans` | src/parse.php:339-354 | A found row is a TABLEROW before the index, and no element between it and the index is a row or a TEXT cell holding a non-delimiter character. |
| `Scan.DelimiterRowFromMeans` | src/parse.php:339-354 | The same for the search from any offset. |
| `OpenTags.IsTagOpenMeans` | src/parse.php:306-308 | A tag is open exactly when some entry has it. |
| `OpenTags.Filter` | src/parse.php:317-323 | Filtering never lengthens the entries. |
| `OpenTags.FilterMembers` | src/parse.php:317-323 | Filtering keeps exactly the entries whose tag matches (or does not match) the one asked for. |
| `OpenTags.SetTagOpenEffect` | src/parse.php:310-315 | Opening an open tag changes nothing; opening keeps at most one entry per tag; afterwards exactly the old tags and the new one are open. |
| `OpenTags.SetTagOpenIdempotent` | src/parse.php:310-315 | Opening a tag twice is opening it once; the first payload stays. |
| `OpenTags.FilterKeepsAtMostOne` | src/parse.php:317-323 | Filtering keeps at most one entry per tag. |
| `OpenTags.UnsetAllTagsOpenEffect` | src/parse.php:321-323 | Unsetting a tag keeps at most one entry per tag, removes exactly that tag's entries and leaves every other tag's open state. |
| `OpenTags.UnsetAllTagsOpenCloses` | src/parse.php:321-323 | Unsetting removes exactly that tag's entries, with no precondition. |
| `OpenTags.HeaderDataIsOpenHeader` | src/parse.php:598-603 | With the header open, exactly one HEADER entry exists, and the level read back is its payload. |
| `OpenTags.KeptAtMostOnce` | src/parse.php:317-319 | With one entry per tag, a query by type returns at most one entry. |
| `ListLevels.Insert` | src/parse.php:384 | Insertion adds one element. |
| `ListLevels.InsertSorted` | src/parse.php:384 | Inserting into a sorted list keeps it sorted. |
| `ListLevels.InsertPerm` | src/parse.php:384 | Insertion adds exactly the new element to the multiset. |
| `ListLevels.SortSpec` | src/parse.php:384 | `sort` orders the list ascending and is a permutation of it. |
| `ListLevels.IndexOf` | src/parse.php:389 | The search yields -1 or an index within the list. |
| `ListLevels.IndexOfMeans` | src/parse.php:389 | The search yields -1 (PHP `false`) exactly for a non-member; otherwise it yields the first index of the element. |
| `ListLevels.Relevel` | src/parse.php:386-390 | A successful re-levelling keeps the number of elements. |
| `ListLevels.RelevelOk` | src/parse.php:386-390 | When every open LI's width is in the sorted list, the re-levelling succeeds with each LI's level set to its width's index. |
| `ListLevels.RelevelError` | src/parse.php:386-390 | Re-levelling fails exactly when some open LI's width is missing from the list. The error is the `TypeError` of the first such LI. |
| `ListLevels.LevelPassShape` | src/parse.php:364-402 | The pass keeps the number of elements and changes nothing but the level of open LIs. |
| `ListLevels.SetLILevel` | src/parse.php:364-402 | The in-place method over the element array leaves the array equal to the pure pass's result on success, and returns that pass's error on failure. |
| `ListLevels.CollectedMembers` | src/parse.php:394-398 | The widths collected inside a list are exactly the widths of its open LIs, each once. |
| `ListLevels.CollectingPhase` | src/parse.php:394-398 | While the list stays open, the `$levels` the pass collects are the collected widths. |
| `ListLevels.ListSpan` | src/parse.php:369-398 | A flat list opened at `k` and closed at `c` is re-levelled to `Ranked` before the pass goes on after `c`. |
| `ListLevels.PassOpens` | src/parse.php:370-376 | An opening UL/OL starts collecting from scratch and remembers where. |
| `ListLevels.PassCloses` | src/parse.php:379-393 | A closing UL/OL re-levels the items since the list opened with the sorted collected widths, then goes on with no widths and no open list. |
| `ListLevels.RelevelSpan` | src/parse.php:383-391 | The re-levelling at a list's close, with the sorted collected widths, yields `Ranked`. |
| `ListLevels.SortedPosition` | src/parse.php:384-389 | After `sort`, a member's first index is the number of smaller elements of the list. |
| `ListLevels.RankOrdersWidths` | src/parse.php:364-402 | Each item's new level is a rank below the number of distinct widths. Wider items get higher ranks, and equal widths get equal ranks, in both directions. |
| `ListLevels.SortedIndexOf` | src/parse.php:384-389 | In a sorted list the first index of a member is the count of smaller elements. |
| `ListLevels.NoCloseNoChange` | src/parse.php:369-398 | With no closing UL/OL left, the pass returns the elements unchanged. |
| `ListLevels.IndentExample` | src/parse.php:364-402 | The list `- \n- t\n    - \n  - \n\n` gives items indented 0, 0, 4 and 2, each followed by its LI closer. They receive the ranks 0, 0, 2 and 1. |
| `ListLevels.IndentCollected` | src/parse.php:394-398 | That list collects the widths 0, 4 and 2, in that order. |
| `ListLevels.IndentRanked` | src/parse.php:383-391 | Re-levelling that list with those widths gives exactly the ranked list. |
| `ListLevels.MixedListsThrow` | src/parse.php:364-402 | The elements of `- a\n1. b\n\n\n` (a numbered item right after a bullet item, so an OL opens inside the open UL, then the line ends close LI, UL and OL) make `setLILevel` throw the `TypeError` at element 5. |
| `ListLevels.MixedFirstItem` | src/parse.php:370-398 | In that input, the UL and its item collect the width 0. |
| `ListLevels.MixedSecondItem` | src/parse.php:370-398 | The OL moves the start of the list to element 4, and its item's width 0 is already known. |
| `ListLevels.MixedUpToUlClose` | src/parse.php:370-398 | Up to the UL's closer, the pass has an open list from element 4 with widths `[0]`. |
| `ListLevels.MixedUlClose` | src/parse.php:379-393 | The UL's closer re-levels elements 4 to 7 without error, then empties `$levels` and ends the open list. The OL's closer then re-levels the same item against no widths. |
| `ParseSpec.DashListRule` | src/parse.php:434-443 | A dash at the beginning of a line is handled without moving the cursor; any other token falls through with the state untouched. |
| `ParseSpec.DigitListRule` | src/parse.php:445-463 | The rule throws exactly for a digit at the beginning of a line that is the last token; a fall-through leaves the state untouched, and the cursor stays in range. |
| `ParseSpec.TableStartRule` | src/parse.php:466-481 | The cursor stays put and a fall-through leaves the state untouched. |
| `ParseSpec.TableCellRule` | src/parse.php:483-497 | The cursor stays put and a fall-through leaves the state untouched. |
| `ParseSpec.SkipWsMeans` | src/parse.php:509-511 | The header's skip stops on the last space of the run: everything skipped is WS, and the next token is not. |
| `ParseSpec.HeaderRule` | src/parse.php:500-513 | The rule throws exactly for a hash run of at most six at the beginning of a line that is the last token; the cursor moves to the end of the following spaces and stays in range. |
| `ParseSpec.EmphasisRule` | src/parse.php:515-550 | The cursor only moves forward and stays in range. |
| `ParseSpec.EmphasisMarker` | src/parse.php:517-549 | The same for the marker once PRE is known to be closed. |
| `ParseSpec.EmphasisToggle` | src/parse.php:530-548 | The cursor stays in range and a fall-through leaves the state untouched. |
| `ParseSpec.QuoteRule` | src/parse.php:553-566 | The cursor stays put and a fall-through leaves the state untouched. |
| `ParseSpec.PreRule` | src/parse.php:569-594 | The cursor stays put and a fall-through leaves the state untouched. |
| `ParseSpec.TableEnd` | src/parse.php:640-665 | Ending a table part keeps the cursor. |
| `ParseSpec.PopThroughRow` | src/parse.php:675-680 | The output pops at least one element (unless empty) and what is left is a prefix. |
| `ParseSpec.Promote` | src/parse.php:682-687 | Renaming rows to headers keeps the number of elements. |
| `ParseSpec.TableContinue` | src/parse.php:670-712 | Continuing a table keeps the cursor. The caller then skips the next token, which is the pipe, or the first blank before it when blanks precede it. |
| `ParseSpec.LineBreakOrEmpty` | src/parse.php:714-735 | The line break logic keeps the cursor. |
| `ParseSpec.CloseBlock` | src/parse.php:598-637 | Closing a block keeps the cursor. |
| `ParseSpec.LineEnd` | src/parse.php:596-736 | A line end keeps the cursor, or, when a table continues, moves it one token forward. That token is the pipe, or a blank before it. |
| `ParseSpec.TableOrBreak` | src/parse.php:640-735 | The same with no block open. |
| `ParseSpec.TableLineEnd` | src/parse.php:640-712 | The same inside a table. |
| `ParseSpec.LineEndRule` | src/parse.php:596-736 | The cursor stays in range and a fall-through leaves the state untouched. |
| `ParseSpec.LinksRule` | src/parse.php:741-769 | The cursor stays put and a fall-through leaves the state untouched. |
| `ParseSpec.StrikeRule` | src/parse.php:771-792 | The rule throws exactly for a dash outside a table cell with no strikethrough open that is the last token; a fall-through leaves the state untouched. |
| `ParseSpec.TextRule` | src/parse.php:794-812 | The text branch always handles the token and never moves the cursor. |
| `ParseSpec.Branch` | src/parse.php:430-812 | Every branch leaves the cursor in range, and the last one always decides. |
| `ParseSpec.TryBranch` | src/parse.php:430-812 | Trying the branches from any point always decides and leaves the cursor in range. |
| `ParseSpec.Dispatch` | src/parse.php:430-812 | The loop body always decides (continue or throw) and leaves the cursor at or after the token it read. |
| `ParseSpec.RunTurn` | src/parse.php:430 | A turn of the loop is the body followed by the resumption on the next token. |
| `ParseSpec.ResumeNext` | src/parse.php:430 | Unless the body threw, the loop goes on at the token after the one the body stopped on. |
| `ParseProperties.MarkKeeps` | src/parse.php:310-315 | Opening a tag keeps one entry per tag and opens exactly that tag on top of the others. |
| `ParseProperties.UnmarkKeeps` | src/parse.php:321-323 | Unsetting keeps one entry per tag and closes exactly that tag. |
| `ParseProperties.DashListKeeps` | src/parse.php:434-443 | The dash list branch opens no tag twice. |
| `ParseProperties.DigitListKeeps` | src/parse.php:445-463 | The numbered list branch opens no tag twice. |
| `ParseProperties.HeaderKeeps` | src/parse.php:500-513 | The header branch opens no tag twice. |
| `ParseProperties.EmphasisKeeps` | src/parse.php:515-550 | The emphasis branch opens no tag twice. |
| `ParseProperties.QuoteKeeps` | src/parse.php:553-566 | The quote branch opens no tag twice. |
| `ParseProperties.PreKeeps` | src/parse.php:569-594 | The preformatted branch opens no tag twice. |
| `ParseProperties.LineEndRuleKeeps` | src/parse.php:596-736 | The line-end branch opens no tag twice. |
| `ParseProperties.LinksKeeps` | src/parse.php:741-769 | The link branches open no tag twice. |
| `ParseProperties.StrikeKeeps` | src/parse.php:771-792 | The strikethrough branch opens no tag twice. |
| `ParseProperties.DispatchKeepsOneEntryPerTag` | src/parse.php:430-812 | No turn of the loop ever leaves two entries for one tag in `$opened`. |
| `ParseProperties.Turns` | src/parse.php:428-812 | The states the loop goes through from a given state: the first is that state, then one per turn. |
| `ParseProperties.RunEndsOnLastTurn` | src/parse.php:428-812 | The loop ends on the last of those states. It returns that state's elements when the tokens ran out, and an error when its turn threw. |
| `ParseProperties.RunKeepsOneEntryPerTag` | src/parse.php:428-812 | If the first state holds at most one entry per tag, every state of the run does. |
| `ParseProperties.ParseKeepsOneEntryPerTag` | src/parse.php:428-812 | From `parse`'s empty start, no state of the loop ever holds two entries for one tag. |
| `ParseProperties.Passes` | src/parse.php:430-812 | A branch lets every token of a kind it does not test through, untouched. |
| `ParseProperties.DispatchReaches` | src/parse.php:430-812 | A token goes straight to the first branch that tests its kind. |
| `ParseProperties.DispatchOnLineEnd` | src/parse.php:596-736 | A line break token always reaches the line-end branch and continues. |
| `ParseProperties.DispatchOnMarker` | src/parse.php:515-550 | An asterisk or underscore is decided by the emphasis branch, or else by the text branch. |
| `ParseProperties.DispatchOnQuoteMarker` | src/parse.php:553-566 | A `>` at the beginning of a line is decided by the quote branch. |
| `ParseProperties.DispatchOnIndent` | src/parse.php:569-594 | Four or more spaces at the beginning of a line with no list open are decided by the preformatted branch. |
| `ParseProperties.MarkerTextValue` | src/parse.php:799-812 | An unmatched marker run becomes TEXT that repeats its character `count` times. |
| `ParseProperties.StrongMarkerStep` | src/parse.php:524-528 | A doubled marker is read as STRONG with the cursor moved onto the second marker. |
| `ParseProperties.MarkerOutcome` | src/parse.php:515-550 | Outside PRE, a marker closes its tag when the tag is open and no blank precedes. Otherwise it opens the tag when a non-blank follows, else it becomes TEXT of its run. |
| `ParseProperties.MarkerInPre` | src/parse.php:515 | Inside PRE a marker is TEXT of its run. |
| `ParseProperties.FirstOpen` | src/parse.php:598-637 | The position found is the first tag of the order that is open. |
| `ParseProperties.BlockOpenMeans` | src/parse.php:598-637 | A block is open exactly when one of HEADER, PRE, QUOTE, LI, UL, OL is. |
| `ParseProperties.LineEndClosesFirstBlock` | src/parse.php:598-637 | With a block open, a line end appends exactly the closer of the first open block tag. |
| `ParseProperties.CloseBlockClosesFirst` | src/parse.php:598-637 | Closing a block appends its closer and forgets that tag only. |
| `ParseProperties.ClosingEffect` | src/parse.php:601-602 | Closing appends the closer and unsets the tag. |
| `ParseProperties.LineEndClosesOneBlock` | src/parse.php:598-637 | A line end with a block open closes exactly one tag, the first in the order, and keeps every other tag's state. |
| `ParseProperties.LineEndClosesFirstTablePart` | src/parse.php:640-665 | Inside a table that does not continue, a line end closes the first open of cell, row, header, table. |
| `ParseProperties.TableOutlivesItsParts` | src/parse.php:644-660 | While a part is open, ending it leaves the table open. |
| `ParseProperties.IdleLineEnd` | src/parse.php:714-735 | With neither block nor table open, a line end writes no closer. After a list element it adds nothing, a line break turns into an empty line, and otherwise a line break is added. |
| `ParseProperties.IdleLineEndsSettle` | src/parse.php:724-735 | A run of idle line ends produces at most one empty line. |
| `ParseProperties.MarkOpens` | src/parse.php:310-315 | Opening a tag opens it and changes no other tag. |
| `ParseProperties.QuoteLine` | src/parse.php:553-566 | A `>` at the beginning of a line keeps QUOTE open; after a QUOTE closer it replaces that closer by a line break, else it appends a QUOTE. |
| `ParseProperties.PreIndentMeans` | src/parse.php:581-591 | Spaces beyond four become one TEXT of exactly that many spaces. |
| `ParseProperties.PreOpenEffect` | src/parse.php:576-592 | Opening PRE either appends a PRE or turns the preceding PRE closer into a line break, and PRE is open afterwards. |
| `ParseProperties.PreLine` | src/parse.php:569-594 | A preformatted line keeps PRE open and produces exactly the elements of `PreOpenEffect` and `PreIndentMeans`. |
| `ParseProperties.PopThroughRowAt` | src/parse.php:675-680 | Popping stops right after the last TABLEROW element. |
| `ParseProperties.PopThroughRowNone` | src/parse.php:675-680 | With no TABLEROW left, popping empties the output. |
| `ParseProperties.PromoteMeans` | src/parse.php:682-687 | Every row from the nearest opening row on becomes a header, and nothing else changes. |
| `ParseProperties.DelimiterRowBecomesHeader` | src/parse.php:674-689 | A line holding only delimiter cells is removed, the rows of the line above become header rows, and the row is unset. |
| `Parser.MarkdownParser.constructor` | src/parse.php:418-428 | The parser starts at token 0 with no output, no open tags and no URL expected. |
| `Parser.MarkdownParser.Push` | src/parse.php:437 | Appending an element adds it to the output and changes nothing else. |
| `Parser.MarkdownParser.SetOpen` | src/parse.php:310-315 | The method updates the open-tag set as `set_tag_open` does. |
| `Parser.MarkdownParser.UnsetOpen` | src/parse.php:321-323 | The method updates the open-tag set as `unset_all_tags_open` does. |
| `Parser.MarkdownParser.PushOpen` | src/parse.php:437-438 | Appends an element and marks its tag open. |
| `Parser.MarkdownParser.PushClose` | src/parse.php:449-450 | Appends a closer and unsets its tag. |
| `Parser.MarkdownParser.CloseTagIfOpen` | src/parse.php:487-490 | Closes a tag only when it is open. |
| `Parser.MarkdownParser.SetLast` | src/parse.php:557 | Replaces the last output element. |
| `Parser.MarkdownParser.RetagLast` | src/parse.php:726 | Changes only the tag of the last output element. |
| `Parser.MarkdownParser.PopThroughTableRow` | src/parse.php:675-680 | The `do`/`while` pop loop leaves the output that `PopThroughRow` specifies. |
| `Parser.MarkdownParser.PromoteHeaderRow` | src/parse.php:682-687 | The backward `for` loop renames rows as `Promote` specifies. |
| `Parser.MarkdownParser.ListDash` | src/parse.php:434-443 | The dash list branch updates the state as `DashListRule` does. |
| `Parser.MarkdownParser.UnorderedItem` | src/parse.php:435-442 | Emits the UL (if needed) and the LI with the leading width. |
| `Parser.MarkdownParser.ListDigit` | src/parse.php:445-463 | The numbered list branch behaves as `DigitListRule`, its `TypeError` included. |
| `Parser.MarkdownParser.OrderedItem` | src/parse.php:447-461 | Closes the LI, opens the OL if needed, emits the LI and skips the dot. |
| `Parser.MarkdownParser.StartTable` | src/parse.php:466-481 | The table start branch behaves as `TableStartRule`. |
| `Parser.MarkdownParser.TablePipe` | src/parse.php:483-497 | The table cell branch behaves as `TableCellRule`. |
| `Parser.MarkdownParser.AtxHeader` | src/parse.php:500-513 | The header branch, with its `while` loop over the spaces, behaves as `HeaderRule`. |
| `Parser.MarkdownParser.EmphasisMark` | src/parse.php:515-550 | The emphasis branch behaves as `EmphasisRule`. |
| `Parser.MarkdownParser.MarkEmphasis` | src/parse.php:517-549 | The marker handling behaves as `EmphasisMarker`. |
| `Parser.MarkdownParser.ReadMarker` | src/parse.php:518-528 | Reads EMPHASIS or STRONG as `MarkerTag` says, moving the cursor only for STRONG. |
| `Parser.MarkdownParser.ToggleEmphasis` | src/parse.php:530-548 | Closing or opening behaves as `EmphasisToggle`. |
| `Parser.MarkdownParser.QuoteMark` | src/parse.php:553-566 | The quote branch behaves as `QuoteRule`. |
| `Parser.MarkdownParser.PreBlock` | src/parse.php:569-594 | The preformatted branch behaves as `PreRule`. |
| `Parser.MarkdownParser.OpenPre` | src/parse.php:577-588 | Opens or continues PRE as `PreOpen` says. |
| `Parser.MarkdownParser.PushIndent` | src/parse.php:581-591 | Appends exactly the indentation TEXT of `PreIndent`. |
| `Parser.MarkdownParser.EndTable` | src/parse.php:640-665 | Ends one table part as `TableEnd` says. |
| `Parser.MarkdownParser.ContinueTable` | src/parse.php:670-712 | Continues the table as `TableContinue` says and skips the next token (the pipe, or a blank before it). |
| `Parser.MarkdownParser.OpenNextRow` | src/parse.php:704-707 | Opens the next row and its first cell. |
| `Parser.MarkdownParser.CloseRowParts` | src/parse.php:691-702 | Closes the open cell, row and header. |
| `Parser.MarkdownParser.DropIfDelimiterRow` | src/parse.php:674-689 | Drops a delimiter row and promotes the header as `DropDelimited` says. |
| `Parser.MarkdownParser.BreakLine` | src/parse.php:714-735 | Writes a line break, an empty line or nothing, as `LineBreakOrEmpty` says. |
| `Parser.MarkdownParser.LineEnding` | src/parse.php:596-736 | The line-end branch behaves as `LineEndRule`. |
| `Parser.MarkdownParser.CloseAtLineEnd` | src/parse.php:597-735 | Behaves as `LineEnd`. |
| `Parser.MarkdownParser.CloseTableOrBreak` | src/parse.php:640-735 | Behaves as `TableOrBreak`. |
| `Parser.MarkdownParser.TableLine` | src/parse.php:640-712 | Behaves as `TableLineEnd`. |
| `Parser.MarkdownParser.CloseBlockTag` | src/parse.php:598-637 | Closes the first open block as `CloseBlock` says. |
| `Parser.MarkdownParser.LinkMark` | src/parse.php:741-769 | The link branches behave as `LinksRule`. |
| `Parser.MarkdownParser.StrikeMark` | src/parse.php:771-792 | The strikethrough branch behaves as `StrikeRule`, its `TypeError` included. |
| `Parser.MarkdownParser.PlainText` | src/parse.php:794-812 | The text branch behaves as `TextRule`. |
| `Parser.MarkdownParser.ListBranches` | src/parse.php:434-463 | The two list branches decide as the chain of branches does, or hand on the state the chain hands on. |
| `Parser.MarkdownParser.TableHeaderBranches` | src/parse.php:466-513 | The same for the table and header branches. |
| `Parser.MarkdownParser.MarkerBranches` | src/parse.php:515-566 | The same for the emphasis and quote branches. |
| `Parser.MarkdownParser.PreBranch` | src/parse.php:569-594 | The same for the preformatted branch. |
| `Parser.MarkdownParser.LineEndBranch` | src/parse.php:596-736 | The same for the line-end branch. |
| `Parser.MarkdownParser.InlineBranches` | src/parse.php:741-812 | The inline branches decide as the rest of the chain does. |
| `Parser.MarkdownParser.ParseToken` | src/parse.php:431-812 | One loop body behaves as `Dispatch`. |
| `Parser.MarkdownParser.Advance` | src/parse.php:430 | `$i++` and nothing else. |
| `Parser.MarkdownParser.Turn` | src/parse.php:430-813 | A turn either throws the error the whole loop throws, or moves the cursor forward without changing what the loop computes. |
| `Parser.MarkdownParser.RunAll` | src/parse.php:430-813 | The `for` loop computes `Run` from the current state. |
| `Parser.Parse` | src/parse.php:416-816 | `parse` computes `ParseTokens`: nothing for no tokens; otherwise the loop and then `setLILevel`, with their errors. |
| `Pipeline.LexedMarkersAreEmphasis` | src/parse.php:524-528 | On lexer output, a marker is always read as EMPHASIS, because a marker run is one token and the next token never has its kind. |
| `Pipeline.EmphasisSpan` | src/parse.php:515-550 | A marker, a TEXT token and a marker of the same kind parse to exactly an EMPHASIS open, the text and an EMPHASIS close. |
| `Pipeline.StarredLexing` | src/tokenize.php:68-74 | `**w**` for a word of TEXT characters lexes to an asterisk run of 2, the word, and an asterisk run of 2. |
| `Pipeline.DoubledMarkersEmphasise` | src/parse.php:515-550 | `**w**`, lexed and then parsed, is an EMPHASIS span around `w`, not STRONG. |
| `Pipeline.EmphasisSpanRendersItalic` | src/Output/OOXML.php:93-148 | The writer writes the text of such a span, and nothing else, in `md-text-italic`, and ends in `md-text`. |
| `FontStyle.Next` | src/Output/OOXML.php:96-129 | Opening STRONG shows bold (italic kept only from italic). Closing STRONG flips bold (italic kept only from bold italic). EMPHASIS does the same with bold and italic exchanged. Other tags keep the style. |
| `FontStyle.StyleNameInjective` | src/Output/OOXML.php:96-129 | The four style names are distinct and are the only ones used. |
| `FontStyle.NameTells` | src/Output/OOXML.php:96-129 | Each name the writer compares against identifies one style. |
| `FontStyle.StyleIsTwoBits` | src/Output/OOXML.php:96-129 | A style is fixed by whether it shows bold and whether it shows italic. |
| `FontStyle.BalancedPairRestores` | src/Output/OOXML.php:96-129 | An open element followed by its close restores the style exactly when the style did not already show that tag. |
| `FontStyle.StrongInsideEmphasis` | src/Output/OOXML.php:96-129 | A STRONG pair inside an open EMPHASIS returns to italic. |
| `FontStyle.StyleAfterAppend` | src/Output/OOXML.php:93-129 | The style after two runs of elements is the first run's style carried through the second. |
| `FontStyle.OtherTagsKeepStyle` | src/Output/OOXML.php:93-129 | Elements other than STRONG and EMPHASIS leave the style unchanged. |
| `FontStyle.FindTag` | src/Output/OOXML.php:186-203 | The first index from `j` on whose element has the tag, or the length when there is none. Every element before it has another tag. |
| `FontStyle.FindTagAt` | src/Output/OOXML.php:186-203 | An element with the tag, with no earlier one from `j` on, is the one `FindTag` finds. |
| `FontStyle.CaptionEnd` | src/Output/OOXML.php:181-207 | The link-caption arm's four scans end strictly after the caption and at most at the length, which means a scan found nothing. |
| `FontStyle.Resume` | src/Output/OOXML.php:93-229 | After element `i` the loop goes on strictly later, at most one past the length. It goes on at `i + 1` unless the element is an opening caption with a run set, or an opening cell with a table set. |
| `FontStyle.WalkStep` | src/Output/OOXML.php:93-229 | One turn of the loop either hangs or goes on where the arm leaves the cursor, with the arm's effect and writes. |
| `FontStyle.SwitchStyle` | src/Output/OOXML.php:96-129 | The string comparisons of the STRONG and EMPHASIS arms move `$fontStyle` from a style's name to the name of `Next` of that style. |
| `FontStyle.Arm` | src/Output/OOXML.php:96-180 | The arms that do not jump change the style as `Next` does and set or clear the run and the table as `Effect` does. A TEXT element is written in the current style name, and it is the only element written. |
| `FontStyle.SkipTo` | src/Output/OOXML.php:186-203 | An inner `while` scan, stopped at the end of the elements, stops where `FindTag` says. |
| `FontStyle.SkipCaption` | src/Output/OOXML.php:181-205 | The four scans of the caption arm stop where `CaptionEnd` says. |
| `FontStyle.Output` | src/Output/OOXML.php:48-229 | The writer's loop produces exactly the writes and the final style of `Render`, or hangs exactly when `Render` does. |
| `FontStyle.WithoutLinksOrCells` | src/Output/OOXML.php:93-229 | Without link captions and table cells, the writer writes every TEXT element, in order, in the style the elements before it leave. It ends on the style of the whole sequence. |
| `FontStyle.WalkFolds` | src/Output/OOXML.php:93-229 | The same from any point of such a sequence, given the writes and the style so far. |
| `FontStyle.CaptionHidesEmphasis` | src/Output/OOXML.php:181-207 | For `x [*a](u) b`, the emphasis marker inside the caption is skipped. `x`, the blanks and `b` are written in `md-text`, and the writer ends in `md-text`. |
| `FontStyle.FoldSeesEmphasis` | src/Output/OOXML.php:113-129 | The plain style fold over the same elements ends in italic, so the fold alone does not describe the writer once links are present. |
| `FontStyle.LinkWithEmphasisEnd` | src/Output/OOXML.php:186-205 | In that input the caption arm's scans end at the closing URL, element 8. |
| `FontStyle.LinkWithEmphasisHead` | src/Output/OOXML.php:143-148 | Before the link, `x` and the blank are written plain and a run is set. |
| `FontStyle.LinkWithEmphasisTail` | src/Output/OOXML.php:143-148 | After the link, the blank and `b` are written plain. |
| `FontStyle.CaptionWithoutUrlHangs` | src/Output/OOXML.php:181-207 | Once a run is set, a caption with no URL after it (`x [a] b`) sends the scans past the last element. |

## Left out

- The rest of the OOXML writer (PhpWord sections, runs, tables, lists, numbering and paragraph styles, and `cm2twip`) is external library I/O. The loop keeps only whether a run and a table are set. It does not keep which run, or the style a run was created with.
- `FontStyle.Output`: the `addLink` and `addCell` calls of the caption and cell arms are not recorded, and so neither are the caption text, URL and cell text they collect. Only the cursor jump is modelled. `addTextBreak` of LINEBREAK is not recorded either.
- `FontStyle.Output`: where PHP's scan reads past the last element, it reads `null`, warns and never stops. The model returns `Hangs` there.
- `src/generate.php` (file input and output) is I/O. `si_unit_convert`, and the debug printers `token2string` and `tag2text`, are not part of the parsing.
- PHP arrays are modelled as dense sequences. The parser model takes a dense token list. A lexing with a hole (a '0' in the text) cannot be given to it, because PHP would read an undefined index there. `Pipeline` states its results only for lexings without holes.
- `mb_str_split` is taken as a sequence of characters. There is no encoding and no normalisation.
- `$state['tableStarted']` is never read by the code and is not modelled. The reference branch (`LBRACKET` with `expectURL` set) has an empty body and is not modelled.
- The `null` payload of `set_tag_open` is modelled as 0. The payload is read back only for headers.
- PHP object identity is not modelled. `MDElement` is a value, because `parse` never shares an element between two places of `$result`.

## Behaviour as written

- **'0' leaves an empty index.** In the lexer, PHP 8's loose `case 0` matches the character '0' before its `case '0'`. Nothing is stored, but the token index still advances. The model keeps this as a `Hole` slot.
- **CR LF gives two line ends.** `$eol` is cleared after every stored character, so the CR LF folding never fires and CR LF lexes to two LN tokens.
- **Doubled markers never give STRONG.** The lexer merges `**` into one ASTERISK token with count 2. The parser only reads STRONG when two marker tokens are adjacent, which lexer output never has (`Pipeline.LexedMarkersAreEmphasis`).
- **An unmatched marker becomes TEXT.** A marker that neither opens nor closes falls through to the text branch. It becomes TEXT repeating its character `count` times. After a STRONG read, the second marker has already been skipped.
- **Two run-time errors are kept.** `peek_next_token_type` at the last index throws a `TypeError` (modelled as `Err`). `setLILevel` throws when `array_search` answers `false`.
- **Mixed lists throw.** A numbered item right after a bullet item opens an OL inside the still open UL. For `- a\n1. b\n\n\n`, the UL's closer re-levels from the OL's opening and empties `$levels`. The OL's closer then re-levels the same item against no widths, and `setLILevel` throws its `TypeError` at element 5 (`ListLevels.MixedListsThrow`).
- **A link caption hides what it holds from the style arms.** The caption arm jumps past the whole link, so a STRONG or EMPHASIS marker inside a caption never changes `$fontStyle` (`FontStyle.CaptionHidesEmphasis`).
- **The writer never stops on an unfinished link or cell.** A caption with no closing caption, URL, URL text or closing URL after it, or a table cell with no later cell, makes the writer's scan run past the elements (`FontStyle.CaptionWithoutUrlHangs`). This happens only once a run or a table is set.
- **An OL closer is not a block.** The OL closer is built with the default constructor and then retagged, so its `block` flag stays false.
