/**
 * The markdown block accumulator of `src/parser/mod.rs`.
 *
 * `parse_response` makes one pass over the events of a markdown tokenizer
 * and folds them into a `ParsedResponse`, a sequence of content blocks. The
 * tokenizer itself is not modelled: the caller supplies its events as a
 * `seq<Event>`. The accumulator state is one text buffer shared by headings,
 * paragraphs, list items and quotes, a code buffer, a list-items buffer, the
 * current heading level, the current code language and six scope flags.
 *
 * `Step` and `RunFrom` are the specification of one event and of a run of
 * events; `ParseResponse` is the imperative loop of the source, proved to
 * compute `Parse`.
 */
module Markdown {
  import opened Common
  import opened Strings

  // ---------------------------------------------------------------------------
  // The tokenizer's vocabulary (the subset of pulldown_cmark events the loop matches on)
  // ---------------------------------------------------------------------------

  /** pulldown_cmark's `HeadingLevel`, H1 to H6, as the number `level as u8` gives. */
  type HeadingLevel = l: int | 1 <= l <= 6 witness 1

  datatype CodeBlockKind = Fenced(info: string) | Indented

  /** The tags the loop distinguishes; every other tag is `OtherTag`. */
  datatype Tag =
    | Heading(level: HeadingLevel)
    | Paragraph
    | CodeBlock(kind: CodeBlockKind)
    | List
    | Item
    | BlockQuote
    | OtherTag

  /** The events the loop distinguishes; every other event is `Other`. */
  datatype Event =
    | Start(tag: Tag)
    | End(tag: Tag)
    | Text(text: string)
    | Code(code: string)
    | SoftBreak
    | HardBreak
    | Other

  // ---------------------------------------------------------------------------
  // Output: ContentBlock and ParsedResponse (src/parser/mod.rs:5-61)
  // ---------------------------------------------------------------------------

  datatype ContentBlock =
    | Title(level: nat, text: string)
    | Paragraph(text: string)
    | CodeBlock(language: Option<string>, code: string)
    | List(items: seq<string>)
    | Quote(text: string)

  /** `get_titles`: the `(level, text)` of every Title, in block order. */
  function Titles(blocks: seq<ContentBlock>): (r: seq<(nat, string)>)
    ensures |r| <= |blocks|
  {
    if blocks == [] then []
    else
      var rest := Titles(blocks[1..]);
      match blocks[0]
      case Title(level, text) => [(level, text)] + rest
      case _ => rest
  }

  /** `get_code_blocks`: the `(language, code)` of every CodeBlock, in block order. */
  function CodeBlocks(blocks: seq<ContentBlock>): (r: seq<(Option<string>, string)>)
    ensures |r| <= |blocks|
  {
    if blocks == [] then []
    else
      var rest := CodeBlocks(blocks[1..]);
      match blocks[0]
      case CodeBlock(language, code) => [(language, code)] + rest
      case _ => rest
  }

  class ParsedResponse {
    var blocks: seq<ContentBlock>

    constructor ()
      ensures blocks == []
    {
      blocks := [];
    }

    method AddBlock(block: ContentBlock)
      modifies this
      ensures blocks == old(blocks) + [block]
    {
      blocks := blocks + [block];
    }

    function GetCodeBlocks(): seq<(Option<string>, string)>
      reads this
    {
      CodeBlocks(blocks)
    }

    function GetTitles(): seq<(nat, string)>
      reads this
    {
      Titles(blocks)
    }
  }

  /** `get_titles` distributes over concatenation of block sequences. */
  lemma {:induction false} TitlesConcat(a: seq<ContentBlock>, b: seq<ContentBlock>)
    ensures Titles(a + b) == Titles(a) + Titles(b)
  {
    if a != [] {
      assert (a + b)[0] == a[0] && (a + b)[1..] == a[1..] + b;
      TitlesConcat(a[1..], b);
    } else {
      assert a + b == b;
    }
  }

  /** A pair is among the titles exactly when the blocks hold that Title. */
  lemma {:induction false} TitlesMembership(blocks: seq<ContentBlock>, level: nat, text: string)
    ensures (level, text) in Titles(blocks) <==> Title(level, text) in blocks
  {
    if blocks != [] {
      TitlesMembership(blocks[1..], level, text);
      assert blocks == [blocks[0]] + blocks[1..];
    }
  }

  /** `get_code_blocks` distributes over concatenation of block sequences. */
  lemma {:induction false} CodeBlocksConcat(a: seq<ContentBlock>, b: seq<ContentBlock>)
    ensures CodeBlocks(a + b) == CodeBlocks(a) + CodeBlocks(b)
  {
    if a != [] {
      assert (a + b)[0] == a[0] && (a + b)[1..] == a[1..] + b;
      CodeBlocksConcat(a[1..], b);
    } else {
      assert a + b == b;
    }
  }

  /** A pair is among the code blocks exactly when the blocks hold that CodeBlock. */
  lemma {:induction false} CodeBlocksMembership(blocks: seq<ContentBlock>, language: Option<string>, code: string)
    ensures (language, code) in CodeBlocks(blocks) <==> ContentBlock.CodeBlock(language, code) in blocks
  {
    if blocks != [] {
      CodeBlocksMembership(blocks[1..], language, code);
      assert blocks == [blocks[0]] + blocks[1..];
    }
  }

  // ---------------------------------------------------------------------------
  // The accumulator as a specification (src/parser/mod.rs:68-199)
  // ---------------------------------------------------------------------------

  /** The local state of `parse_response`, together with the blocks emitted so far. */
  datatype Accumulator = Accumulator(
    text: string,
    code: string,
    codeLang: Option<string>,
    items: seq<string>,
    inCodeBlock: bool,
    inList: bool,
    inHeading: bool,
    inParagraph: bool,
    inQuote: bool,
    inListItem: bool,
    headingLevel: nat,
    blocks: seq<ContentBlock>)

  /** The state before the first event. */
  const Initial := Accumulator("", "", None, [], false, false, false, false, false, false, 0, [])

  /** The language a code block records: a non-empty fence string, verbatim. */
  function LanguageOf(kind: CodeBlockKind): (r: Option<string>)
    ensures r.Some? <==> kind.Fenced? && kind.info != ""
    ensures r.Some? ==> r.value == kind.info
  {
    match kind
    case Fenced(info) => if info == "" then None else Some(info)
    case Indented => None
  }

  /** Number of `End` events in a sequence. */
  function EndCount(events: seq<Event>): nat {
    if events == [] then 0 else (if events[0].End? then 1 else 0) + EndCount(events[1..])
  }

  /** A `Start` event opens its scope and clears the buffer that scope fills. */
  function StartScope(s: Accumulator, tag: Tag): (r: Accumulator)
    ensures r.blocks == s.blocks
  {
    match tag
    case Heading(level) => s.(inHeading := true, headingLevel := level, text := "")
    case Paragraph => s.(inParagraph := true, text := "")
    case CodeBlock(kind) => s.(inCodeBlock := true, code := "", codeLang := LanguageOf(kind))
    case List => s.(inList := true, items := [])
    case Item => s.(inListItem := true, text := "")
    case BlockQuote => s.(inQuote := true, text := "")
    case OtherTag => s
  }

  /** `End(Heading)`: a Title from the trimmed text, if the heading is open and its text non-empty. */
  function CloseHeading(s: Accumulator): Accumulator {
    if s.inHeading && s.text != "" then
      s.(blocks := s.blocks + [Title(s.headingLevel, Trim(s.text))], text := "", inHeading := false)
    else s.(inHeading := false)
  }

  /** `End(Paragraph)`: as a heading, but nothing is emitted inside a list item. */
  function CloseParagraph(s: Accumulator): Accumulator {
    if s.inParagraph && !s.inListItem && s.text != "" then
      s.(blocks := s.blocks + [ContentBlock.Paragraph(Trim(s.text))], text := "", inParagraph := false)
    else s.(inParagraph := false)
  }

  /** `End(CodeBlock)`: an open code block is always emitted, its code with trailing whitespace removed. */
  function CloseCodeBlock(s: Accumulator): Accumulator {
    if s.inCodeBlock then
      s.(blocks := s.blocks + [ContentBlock.CodeBlock(s.codeLang, TrimEnd(s.code))],
         inCodeBlock := false, code := "", codeLang := None)
    else s
  }

  /** `End(List)`: a List of the collected items, if the list is open and has any. */
  function CloseList(s: Accumulator): Accumulator {
    if s.inList && s.items != [] then
      s.(blocks := s.blocks + [ContentBlock.List(s.items)], items := [], inList := false)
    else s.(inList := false)
  }

  /** `End(Item)`: the trimmed text joins the list items; no block is emitted. */
  function CloseItem(s: Accumulator): Accumulator {
    if s.inListItem && s.text != "" then
      s.(items := s.items + [Trim(s.text)], text := "", inListItem := false)
    else s.(inListItem := false)
  }

  /** `End(BlockQuote)`: a Quote from the trimmed text, if the quote is open and its text non-empty. */
  function CloseQuote(s: Accumulator): Accumulator {
    if s.inQuote && s.text != "" then
      s.(blocks := s.blocks + [Quote(Trim(s.text))], text := "", inQuote := false)
    else s.(inQuote := false)
  }

  /**
   * An `End` event closes its scope and emits at most one block. The buffers
   * are checked for emptiness before trimming, and the text buffer is cleared
   * only when something was taken from it.
   */
  function EndScope(s: Accumulator, tag: Tag): (r: Accumulator)
    ensures s.blocks <= r.blocks && |r.blocks| <= |s.blocks| + 1
  {
    match tag
    case Heading(_) => CloseHeading(s)
    case Paragraph => CloseParagraph(s)
    case CodeBlock(_) => CloseCodeBlock(s)
    case List => CloseList(s)
    case Item => CloseItem(s)
    case BlockQuote => CloseQuote(s)
    case OtherTag => s
  }

  /** Text goes to the code buffer inside a code block and to the text buffer elsewhere. */
  function AddText(s: Accumulator, t: string): (r: Accumulator)
    ensures r.blocks == s.blocks
  {
    if s.inCodeBlock then s.(code := s.code + t) else s.(text := s.text + t)
  }

  /** A soft or hard break: a newline in code, one space after non-empty text, else nothing. */
  function AddBreak(s: Accumulator): (r: Accumulator)
    ensures r.blocks == s.blocks
  {
    if s.inCodeBlock then s.(code := s.code + "\n")
    else if s.text != "" then s.(text := s.text + " ")
    else s
  }

  /**
   * One iteration of the `for event in parser` loop. Blocks are only appended,
   * at most one per `End` event and none for any other event; the events the
   * loop does not match on change nothing.
   */
  function Step(s: Accumulator, e: Event): (r: Accumulator)
    ensures s.blocks <= r.blocks
    ensures |r.blocks| <= |s.blocks| + (if e.End? then 1 else 0)
    ensures e == Other || e == Start(OtherTag) || e == End(OtherTag) ==> r == s
  {
    match e
    case Start(tag) => StartScope(s, tag)
    case End(tag) => EndScope(s, tag)
    case Text(t) => AddText(s, t)
    case Code(c) => s.(text := s.text + "`" + c + "`")
    case SoftBreak => AddBreak(s)
    case HardBreak => AddBreak(s)
    case Other => s
  }

  /**
   * The loop over a sequence of events. The blocks already emitted stay in
   * place, and one `End` event adds at most one block.
   */
  function RunFrom(s: Accumulator, events: seq<Event>): (r: Accumulator)
    decreases |events|
    ensures s.blocks <= r.blocks
    ensures |r.blocks| <= |s.blocks| + EndCount(events)
  {
    if events == [] then s else RunFrom(Step(s, events[0]), events[1..])
  }

  /** `parse_response` on the tokenizer's events: the blocks after the last event. */
  function Parse(events: seq<Event>): seq<ContentBlock> {
    RunFrom(Initial, events).blocks
  }

  // ---------------------------------------------------------------------------
  // The imperative loop (src/parser/mod.rs:64-202)
  // ---------------------------------------------------------------------------

  /**
   * The mutable locals of `parse_response` (lines 65-78), gathered in one
   * object so that each arm of the loop's `match` is a method of its own.
   */
  class BlockAccumulator {
    var currentText: string
    var currentCode: string
    var currentCodeLang: Option<string>
    var listItems: seq<string>
    var inCodeBlock: bool
    var inList: bool
    var inHeading: bool
    var inParagraph: bool
    var inQuote: bool
    var inListItem: bool
    var currentHeadingLevel: nat
    const parsed: ParsedResponse

    /** The abstract state: the locals and the blocks added to `parsed` so far. */
    ghost function State(): Accumulator
      reads this, parsed
    {
      Accumulator(currentText, currentCode, currentCodeLang, listItems,
                  inCodeBlock, inList, inHeading, inParagraph, inQuote, inListItem,
                  currentHeadingLevel, parsed.blocks)
    }

    constructor ()
      ensures fresh(parsed)
      ensures State() == Initial
    {
      parsed := new ParsedResponse();
      currentText, currentCode, currentCodeLang, listItems := "", "", None, [];
      inCodeBlock, inList, inHeading, inParagraph, inQuote, inListItem := false, false, false, false, false, false;
      currentHeadingLevel := 0;
    }

    /** `Event::Start(tag)`, lines 82-119. */
    method OnStart(tag: Tag)
      modifies this
      ensures State() == StartScope(old(State()), tag)
    {
      match tag {
        case Heading(level) =>
          inHeading := true;
          currentHeadingLevel := level;
          currentText := "";
        case Paragraph =>
          inParagraph := true;
          currentText := "";
        case CodeBlock(kind) =>
          OpenCodeBlock(kind);
        case List =>
          inList := true;
          listItems := [];
        case Item =>
          inListItem := true;
          currentText := "";
        case BlockQuote =>
          inQuote := true;
          currentText := "";
        case OtherTag =>
      }
    }

    /** `Start(CodeBlock(kind))`, lines 92-104: the fence string, when there is one, is the language. */
    method OpenCodeBlock(kind: CodeBlockKind)
      modifies this
      ensures State() == StartScope(old(State()), Tag.CodeBlock(kind))
    {
      inCodeBlock := true;
      currentCode := "";
      match kind {
        case Fenced(lang) =>
          if lang == "" {
            currentCodeLang := None;
          } else {
            currentCodeLang := Some(lang);
          }
        case Indented =>
          currentCodeLang := None;
      }
    }

    /** `End(Heading)`, lines 121-130. */
    method CloseHeadingScope()
      modifies this, parsed
      ensures State() == CloseHeading(old(State()))
    {
      if inHeading && currentText != "" {
        parsed.AddBlock(Title(currentHeadingLevel, Trim(currentText)));
        currentText := "";
      }
      inHeading := false;
    }

    /** `End(Paragraph)`, lines 131-139. */
    method CloseParagraphScope()
      modifies this, parsed
      ensures State() == CloseParagraph(old(State()))
    {
      if inParagraph && !inListItem && currentText != "" {
        parsed.AddBlock(ContentBlock.Paragraph(Trim(currentText)));
        currentText := "";
      }
      inParagraph := false;
    }

    /** `End(CodeBlock)`, lines 140-150. */
    method CloseCodeBlockScope()
      modifies this, parsed
      ensures State() == CloseCodeBlock(old(State()))
    {
      if inCodeBlock {
        parsed.AddBlock(ContentBlock.CodeBlock(currentCodeLang, TrimEnd(currentCode)));
        inCodeBlock := false;
        currentCode := "";
        currentCodeLang := None;
      }
    }

    /** `End(List)`, lines 151-159. */
    method CloseListScope()
      modifies this, parsed
      ensures State() == CloseList(old(State()))
    {
      if inList && listItems != [] {
        parsed.AddBlock(ContentBlock.List(listItems));
        listItems := [];
      }
      inList := false;
    }

    /** `End(Item)`, lines 160-166. */
    method CloseItemScope()
      modifies this
      ensures State() == CloseItem(old(State()))
    {
      if inListItem && currentText != "" {
        listItems := listItems + [Trim(currentText)];
        currentText := "";
      }
      inListItem := false;
    }

    /** `End(BlockQuote)`, lines 167-175. */
    method CloseQuoteScope()
      modifies this, parsed
      ensures State() == CloseQuote(old(State()))
    {
      if inQuote && currentText != "" {
        parsed.AddBlock(Quote(Trim(currentText)));
        currentText := "";
      }
      inQuote := false;
    }

    /** `Event::End(tag)`, lines 120-177. */
    method OnEnd(tag: Tag)
      modifies this, parsed
      ensures State() == EndScope(old(State()), tag)
    {
      match tag {
        case Heading(_) => CloseHeadingScope();
        case Paragraph => CloseParagraphScope();
        case CodeBlock(_) => CloseCodeBlockScope();
        case List => CloseListScope();
        case Item => CloseItemScope();
        case BlockQuote => CloseQuoteScope();
        case OtherTag =>
      }
    }

    /** One event: the body of `for event in parser`, lines 81-198. */
    method OnEvent(e: Event)
      modifies this, parsed
      ensures State() == Step(old(State()), e)
    {
      match e {
        case Start(tag) =>
          OnStart(tag);
        case End(tag) =>
          OnEnd(tag);
        case Text(t) =>
          if inCodeBlock {
            currentCode := currentCode + t;
          } else {
            currentText := currentText + t;
          }
        case Code(c) =>
          currentText := currentText + "`" + c + "`";
        case SoftBreak =>
          if inCodeBlock {
            currentCode := currentCode + "\n";
          } else if currentText != "" {
            currentText := currentText + " ";
          }
        case HardBreak =>
          if inCodeBlock {
            currentCode := currentCode + "\n";
          } else if currentText != "" {
            currentText := currentText + " ";
          }
        case Other =>
      }
    }
  }

  /** `parse_response`: one pass of the accumulator over the events. */
  method ParseResponse(events: seq<Event>) returns (parsed: ParsedResponse)
    ensures fresh(parsed)
    ensures parsed.blocks == Parse(events)
  {
    var acc := new BlockAccumulator();
    for i := 0 to |events|
      invariant fresh(acc) && fresh(acc.parsed)
      invariant RunFrom(acc.State(), events[i..]) == RunFrom(Initial, events)
    {
      assert events[i..] == [events[i]] + events[i + 1..];
      acc.OnEvent(events[i]);
    }
    parsed := acc.parsed;
  }
}
