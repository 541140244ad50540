/**
 * Properties of `parse_response` (src/parser/mod.rs:64-202), stated about the
 * specification `RunFrom` / `Parse` that the imperative loop is proved to compute.
 */
module MarkdownProps {
  import opened Common
  import opened Strings
  import opened Markdown

  // ---------------------------------------------------------------------------
  // The fold
  // ---------------------------------------------------------------------------

  /** Running two event sequences one after the other is running their concatenation. */
  lemma {:induction false} RunFromConcat(s: Accumulator, a: seq<Event>, b: seq<Event>)
    ensures RunFrom(s, a + b) == RunFrom(RunFrom(s, a), b)
    decreases |a|
  {
    if a != [] {
      assert (a + b)[0] == a[0] && (a + b)[1..] == a[1..] + b;
      RunFromConcat(Step(s, a[0]), a[1..], b);
    } else {
      assert a + b == b;
    }
  }

  /** Events after the last `End` add no block: an unclosed scope is dropped. */
  lemma TrailingEventsEmitNothing(events: seq<Event>, tail: seq<Event>)
    requires EndCount(tail) == 0
    ensures Parse(events + tail) == Parse(events)
  {
    RunFromConcat(Initial, events, tail);
  }

  // ---------------------------------------------------------------------------
  // Well-formedness of the emitted blocks
  // ---------------------------------------------------------------------------

  /**
   * What every block the loop emits satisfies: a Title's level is that of a
   * markdown heading, texts and list items carry no surrounding whitespace, a
   * list has at least one item, a recorded code language is non-empty and code
   * has no trailing whitespace.
   */
  predicate WellFormedBlock(b: ContentBlock) {
    match b
    case Title(level, text) => 1 <= level <= 6 && IsTrimmed(text)
    case Paragraph(text) => IsTrimmed(text)
    case CodeBlock(language, code) =>
      (language.Some? ==> language.value != "") && (code == [] || !IsWhitespace(code[|code| - 1]))
    case List(items) => items != [] && forall i :: 0 <= i < |items| ==> IsTrimmed(items[i])
    case Quote(text) => IsTrimmed(text)
  }

  predicate AllWellFormed(blocks: seq<ContentBlock>) {
    forall i :: 0 <= i < |blocks| ==> WellFormedBlock(blocks[i])
  }

  predicate AllTrimmed(items: seq<string>) {
    forall i :: 0 <= i < |items| ==> IsTrimmed(items[i])
  }

  /** The invariant of the loop's locals that makes every emitted block well formed. */
  predicate Inv(s: Accumulator) {
    && AllWellFormed(s.blocks)
    && AllTrimmed(s.items)
    && (s.inHeading ==> 1 <= s.headingLevel <= 6)
    && (s.codeLang.Some? ==> s.codeLang.value != "")
  }

  lemma InitialInv()
    ensures Inv(Initial)
  {
  }

  lemma AppendWellFormed(blocks: seq<ContentBlock>, b: ContentBlock)
    requires AllWellFormed(blocks) && WellFormedBlock(b)
    ensures AllWellFormed(blocks + [b])
  {
  }

  lemma CloseHeadingInv(s: Accumulator)
    requires Inv(s)
    ensures Inv(CloseHeading(s))
  {
    if s.inHeading && s.text != "" {
      TrimSpec(s.text);
      AppendWellFormed(s.blocks, Title(s.headingLevel, Trim(s.text)));
    }
  }

  lemma CloseParagraphInv(s: Accumulator)
    requires Inv(s)
    ensures Inv(CloseParagraph(s))
  {
    if s.inParagraph && !s.inListItem && s.text != "" {
      TrimSpec(s.text);
      AppendWellFormed(s.blocks, ContentBlock.Paragraph(Trim(s.text)));
    }
  }

  lemma CloseCodeBlockInv(s: Accumulator)
    requires Inv(s)
    ensures Inv(CloseCodeBlock(s))
  {
    if s.inCodeBlock {
      TrimEndSpec(s.code);
      AppendWellFormed(s.blocks, ContentBlock.CodeBlock(s.codeLang, TrimEnd(s.code)));
    }
  }

  lemma CloseListInv(s: Accumulator)
    requires Inv(s)
    ensures Inv(CloseList(s))
  {
    if s.inList && s.items != [] {
      AppendWellFormed(s.blocks, ContentBlock.List(s.items));
    }
  }

  lemma CloseItemInv(s: Accumulator)
    requires Inv(s)
    ensures Inv(CloseItem(s))
  {
    if s.inListItem && s.text != "" {
      TrimSpec(s.text);
      assert AllTrimmed(s.items + [Trim(s.text)]);
    }
  }

  lemma CloseQuoteInv(s: Accumulator)
    requires Inv(s)
    ensures Inv(CloseQuote(s))
  {
    if s.inQuote && s.text != "" {
      TrimSpec(s.text);
      AppendWellFormed(s.blocks, Quote(Trim(s.text)));
    }
  }

  /** Every `End` event keeps the invariant. */
  lemma EndInv(s: Accumulator, tag: Tag)
    requires Inv(s)
    ensures Inv(EndScope(s, tag))
  {
    match tag {
      case Heading(_) => CloseHeadingInv(s);
      case Paragraph => CloseParagraphInv(s);
      case CodeBlock(_) => CloseCodeBlockInv(s);
      case List => CloseListInv(s);
      case Item => CloseItemInv(s);
      case BlockQuote => CloseQuoteInv(s);
      case OtherTag =>
    }
  }

  /** Every `Start` event keeps the invariant. */
  lemma StartInv(s: Accumulator, tag: Tag)
    requires Inv(s)
    ensures Inv(StartScope(s, tag))
  {
    match tag {
      case Heading(level) =>
        assert StartScope(s, tag) == s.(inHeading := true, headingLevel := level, text := "");
      case Paragraph =>
        assert StartScope(s, tag) == s.(inParagraph := true, text := "");
      case CodeBlock(kind) =>
        assert StartScope(s, tag) == s.(inCodeBlock := true, code := "", codeLang := LanguageOf(kind));
      case List =>
        assert StartScope(s, tag) == s.(inList := true, items := []);
      case Item =>
        assert StartScope(s, tag) == s.(inListItem := true, text := "");
      case BlockQuote =>
        assert StartScope(s, tag) == s.(inQuote := true, text := "");
      case OtherTag =>
    }
  }

  /** Every event keeps the invariant. */
  lemma StepInv(s: Accumulator, e: Event)
    requires Inv(s)
    ensures Inv(Step(s, e))
  {
    match e {
      case Start(tag) => StartInv(s, tag);
      case End(tag) => EndInv(s, tag);
      case _ =>
    }
  }

  lemma {:induction false} RunFromInv(s: Accumulator, events: seq<Event>)
    requires Inv(s)
    ensures Inv(RunFrom(s, events))
    decreases |events|
  {
    if events != [] {
      StepInv(s, events[0]);
      RunFromInv(Step(s, events[0]), events[1..]);
    }
  }

  /** Every block `parse_response` returns is well formed, whatever the events. */
  lemma ParseWellFormed(events: seq<Event>)
    ensures forall b :: b in Parse(events) ==> WellFormedBlock(b)
  {
    InitialInv();
    RunFromInv(Initial, events);
  }

  /** Every title `get_titles` returns has a level between 1 and 6. */
  lemma TitleLevels(events: seq<Event>)
    ensures forall i :: 0 <= i < |Titles(Parse(events))| ==> 1 <= Titles(Parse(events))[i].0 <= 6
  {
    ParseWellFormed(events);
    forall i | 0 <= i < |Titles(Parse(events))|
      ensures 1 <= Titles(Parse(events))[i].0 <= 6
    {
      var t := Titles(Parse(events))[i];
      TitlesMembership(Parse(events), t.0, t.1);
    }
  }

  // ---------------------------------------------------------------------------
  // One construct at a time
  // ---------------------------------------------------------------------------

  /** Running one event is one step. */
  lemma RunFrom1(s: Accumulator, a: Event)
    ensures RunFrom(s, [a]) == Step(s, a)
  {
    assert [a][1..] == [];
    assert RunFrom(s, [a]) == RunFrom(Step(s, a), []);
  }

  /** Running two events is stepping twice. */
  lemma RunFrom2(s: Accumulator, a: Event, b: Event)
    ensures RunFrom(s, [a, b]) == Step(Step(s, a), b)
  {
    assert [a, b][1..] == [b];
    assert RunFrom(s, [a, b]) == RunFrom(Step(s, a), [b]);
    RunFrom1(Step(s, a), b);
  }

  /** Running three events is stepping three times. */
  lemma RunFrom3(s: Accumulator, a: Event, b: Event, c: Event)
    ensures RunFrom(s, [a, b, c]) == Step(Step(Step(s, a), b), c)
  {
    assert [a, b, c][1..] == [b, c];
    assert RunFrom(s, [a, b, c]) == RunFrom(Step(s, a), [b, c]);
    RunFrom2(Step(s, a), b, c);
  }
  /** Running four events is stepping four times. */
  lemma RunFrom4(s: Accumulator, a: Event, b: Event, c: Event, d: Event)
    ensures RunFrom(s, [a, b, c, d]) == Step(Step(Step(Step(s, a), b), c), d)
  {
    assert [a, b, c, d][1..] == [b, c, d];
    assert RunFrom(s, [a, b, c, d]) == RunFrom(Step(s, a), [b, c, d]);
    RunFrom3(Step(s, a), b, c, d);
  }

  /** Running five events is stepping five times. */
  lemma RunFrom5(s: Accumulator, a: Event, b: Event, c: Event, d: Event, e: Event)
    ensures RunFrom(s, [a, b, c, d, e]) == Step(Step(Step(Step(Step(s, a), b), c), d), e)
  {
    assert [a, b, c, d, e][1..] == [b, c, d, e];
    assert RunFrom(s, [a, b, c, d, e]) == RunFrom(Step(s, a), [b, c, d, e]);
    RunFrom4(Step(s, a), b, c, d, e);
  }


  /**
   * A heading with one text event: a Title of the trimmed text, unless the
   * text is empty; afterwards the text buffer is empty and the heading closed.
   */
  lemma Heading(s: Accumulator, level: HeadingLevel, t: string)
    requires !s.inCodeBlock
    ensures RunFrom(s, [Start(Tag.Heading(level)), Text(t), End(Tag.Heading(level))])
         == s.(blocks := s.blocks + (if t == "" then [] else [Title(level, Trim(t))]),
               text := "", inHeading := false, headingLevel := level)
  {
    RunFrom3(s, Start(Tag.Heading(level)), Text(t), End(Tag.Heading(level)));
    var s1 := Step(s, Start(Tag.Heading(level)));
    assert s1 == s.(inHeading := true, headingLevel := level, text := "");
    var s2 := Step(s1, Text(t));
    assert s2 == s.(inHeading := true, headingLevel := level, text := t);
    if t == "" {
      assert s.blocks + [] == s.blocks;
    }
  }

  /**
   * A paragraph outside a list item with one text event: a Paragraph of the
   * trimmed text, unless it is empty; afterwards the text buffer is empty.
   */
  lemma TopLevelParagraph(s: Accumulator, t: string)
    requires !s.inCodeBlock && !s.inListItem
    ensures RunFrom(s, [Start(Tag.Paragraph), Text(t), End(Tag.Paragraph)])
         == s.(blocks := s.blocks + (if t == "" then [] else [ContentBlock.Paragraph(Trim(t))]),
               text := "", inParagraph := false)
  {
    RunFrom3(s, Start(Tag.Paragraph), Text(t), End(Tag.Paragraph));
    var s1 := Step(s, Start(Tag.Paragraph));
    assert s1 == s.(inParagraph := true, text := "");
    var s2 := Step(s1, Text(t));
    assert s2 == s.(inParagraph := true, text := t);
    if t == "" {
      assert s.blocks + [] == s.blocks;
    }
  }

  /**
   * A paragraph that ends inside a list item emits nothing and keeps its
   * text; the item's end then takes that text, trimmed, as a list item.
   */
  lemma ParagraphInsideItem(s: Accumulator)
    requires s.inParagraph && s.inListItem && s.text != ""
    ensures RunFrom(s, [End(Tag.Paragraph), End(Item)])
         == s.(inParagraph := false, inListItem := false, text := "", items := s.items + [Trim(s.text)])
  {
    RunFrom2(s, End(Tag.Paragraph), End(Item));
    assert Step(s, End(Tag.Paragraph)) == s.(inParagraph := false);
  }

  /**
   * A code block with one text event is always emitted, with its fence
   * language and its code trimmed at the end; afterwards the code buffer is
   * empty and no language is recorded.
   */
  lemma FencedCode(s: Accumulator, kind: CodeBlockKind, c: string)
    ensures RunFrom(s, [Start(Tag.CodeBlock(kind)), Text(c), End(Tag.CodeBlock(kind))])
         == s.(blocks := s.blocks + [ContentBlock.CodeBlock(LanguageOf(kind), TrimEnd(c))],
               code := "", codeLang := None, inCodeBlock := false)
  {
    RunFrom3(s, Start(Tag.CodeBlock(kind)), Text(c), End(Tag.CodeBlock(kind)));
    var s1 := Step(s, Start(Tag.CodeBlock(kind)));
    assert s1 == s.(inCodeBlock := true, code := "", codeLang := LanguageOf(kind));
    var s2 := Step(s1, Text(c));
    assert s2 == s.(inCodeBlock := true, code := c, codeLang := LanguageOf(kind));
  }

  /**
   * A soft or hard break between two texts of a paragraph becomes one space:
   * the paragraph is the trimmed text with the break read as a blank.
   */
  lemma WrappedParagraph(s: Accumulator, a: string, brk: Event, b: string)
    requires !s.inCodeBlock && !s.inListItem && a != ""
    requires brk == SoftBreak || brk == HardBreak
    ensures RunFrom(s, [Start(Tag.Paragraph), Text(a), brk, Text(b), End(Tag.Paragraph)])
         == s.(blocks := s.blocks + [ContentBlock.Paragraph(Trim(a + " " + b))],
               text := "", inParagraph := false)
  {
    RunFrom5(s, Start(Tag.Paragraph), Text(a), brk, Text(b), End(Tag.Paragraph));
    var s1 := Step(s, Start(Tag.Paragraph));
    assert s1 == s.(inParagraph := true, text := "");
    var s2 := Step(s1, Text(a));
    assert s2 == s.(inParagraph := true, text := a);
    var s3 := Step(s2, brk);
    assert s3 == s.(inParagraph := true, text := a + " ");
    var s4 := Step(s3, Text(b));
    assert s4 == s.(inParagraph := true, text := a + " " + b);
  }

  /** A break before any text of a paragraph adds nothing. */
  lemma LeadingBreak(s: Accumulator, brk: Event, b: string)
    requires !s.inCodeBlock
    requires brk == SoftBreak || brk == HardBreak
    ensures RunFrom(s, [Start(Tag.Paragraph), brk, Text(b), End(Tag.Paragraph)])
         == RunFrom(s, [Start(Tag.Paragraph), Text(b), End(Tag.Paragraph)])
  {
    RunFrom4(s, Start(Tag.Paragraph), brk, Text(b), End(Tag.Paragraph));
    RunFrom3(s, Start(Tag.Paragraph), Text(b), End(Tag.Paragraph));
    var s1 := Step(s, Start(Tag.Paragraph));
    assert s1.text == "" && !s1.inCodeBlock;
    assert Step(s1, brk) == s1;
  }

  /** In a code block, text, a break and text add up to one text with a newline. */
  lemma BreakJoinsCode(s: Accumulator, a: string, brk: Event, b: string)
    requires s.inCodeBlock
    requires brk == SoftBreak || brk == HardBreak
    ensures Step(Step(Step(s, Text(a)), brk), Text(b)) == Step(s, Text(a + "\n" + b))
  {
    var s2 := Step(s, Text(a));
    assert s2 == s.(code := s.code + a);
    var s3 := Step(s2, brk);
    assert s3 == s.(code := s.code + a + "\n");
    assert Step(s3, Text(b)) == s.(code := s.code + a + "\n" + b);
    assert s.code + a + "\n" + b == s.code + (a + "\n" + b);
  }

  /** Inside a fence a break is a newline of the code. */
  lemma BreakInCode(s: Accumulator, kind: CodeBlockKind, a: string, brk: Event, b: string)
    requires brk == SoftBreak || brk == HardBreak
    ensures RunFrom(s, [Start(Tag.CodeBlock(kind)), Text(a), brk, Text(b), End(Tag.CodeBlock(kind))])
         == s.(blocks := s.blocks + [ContentBlock.CodeBlock(LanguageOf(kind), TrimEnd(a + "\n" + b))],
               code := "", codeLang := None, inCodeBlock := false)
  {
    RunFrom5(s, Start(Tag.CodeBlock(kind)), Text(a), brk, Text(b), End(Tag.CodeBlock(kind)));
    RunFrom3(s, Start(Tag.CodeBlock(kind)), Text(a + "\n" + b), End(Tag.CodeBlock(kind)));
    BreakJoinsCode(Step(s, Start(Tag.CodeBlock(kind))), a, brk, b);
    FencedCode(s, kind, a + "\n" + b);
  }

  /**
   * Inline code joins the paragraph's text between backquotes; the paragraph is
   * then never empty, so it is always emitted.
   */
  lemma InlineCode(s: Accumulator, a: string, c: string)
    requires !s.inCodeBlock && !s.inListItem
    ensures RunFrom(s, [Start(Tag.Paragraph), Text(a), Code(c), End(Tag.Paragraph)])
         == s.(blocks := s.blocks + [ContentBlock.Paragraph(Trim(a + "`" + c + "`"))],
               text := "", inParagraph := false)
  {
    RunFrom4(s, Start(Tag.Paragraph), Text(a), Code(c), End(Tag.Paragraph));
    var s1 := Step(s, Start(Tag.Paragraph));
    assert s1 == s.(inParagraph := true, text := "");
    var s2 := Step(s1, Text(a));
    assert s2 == s.(inParagraph := true, text := a);
    var s3 := Step(s2, Code(c));
    assert s3 == s.(inParagraph := true, text := a + "`" + c + "`");
    assert s3.text != "";
  }

  /** The events of a tight list's items, one text event each. */
  function ItemEvents(texts: seq<string>): seq<Event> {
    if texts == [] then [] else [Start(Item), Text(texts[0]), End(Item)] + ItemEvents(texts[1..])
  }

  /** The items a tight list collects: the trimmed texts, empty ones dropped. */
  function CollectedItems(texts: seq<string>): seq<string> {
    if texts == [] then [] else ItemOf(texts[0]) + CollectedItems(texts[1..])
  }

  /** The state after list items: `got` appended to the items, the text buffer and the item scope closed. */
  function AfterItems(s: Accumulator, got: seq<string>): Accumulator {
    s.(items := s.items + got, text := "", inListItem := false)
  }

  /** The item a single text contributes: its trimmed text, or nothing when it is empty. */
  function ItemOf(t: string): seq<string> {
    if t == "" then [] else [Trim(t)]
  }

  /** Opening an item and adding its text outside a code block fills the text buffer. */
  lemma ItemOpened(s: Accumulator, t: string)
    requires !s.inCodeBlock
    ensures Step(Step(s, Start(Item)), Text(t)) == s.(inListItem := true, text := t)
  {
    assert Step(s, Start(Item)) == s.(inListItem := true, text := "");
  }

  /** Closing an open item collects its text. */
  lemma ItemClosed(s: Accumulator)
    requires s.inListItem
    ensures Step(s, End(Item)) == AfterItems(s, ItemOf(s.text))
  {
    if s.text == "" {
      assert s.items + [] == s.items;
    }
  }

  /** One item of a tight list: its text, trimmed, joins the items unless it is empty. */
  lemma ItemRun(s: Accumulator, t: string)
    requires !s.inCodeBlock
    ensures RunFrom(s, [Start(Item), Text(t), End(Item)]) == AfterItems(s, ItemOf(t))
  {
    RunFrom3(s, Start(Item), Text(t), End(Item));
    ItemOpened(s, t);
    ItemClosed(s.(inListItem := true, text := t));
  }

  /** The first item of a list is run first. */
  lemma ItemsCons(s: Accumulator, texts: seq<string>)
    requires !s.inCodeBlock && texts != []
    ensures RunFrom(s, ItemEvents(texts)) == RunFrom(AfterItems(s, ItemOf(texts[0])), ItemEvents(texts[1..]))
  {
    var head := [Start(Item), Text(texts[0]), End(Item)];
    assert ItemEvents(texts) == head + ItemEvents(texts[1..]);
    RunFromConcat(s, head, ItemEvents(texts[1..]));
    ItemRun(s, texts[0]);
  }

  /** Collecting twice is collecting the concatenation. */
  lemma AfterItemsTwice(s: Accumulator, a: seq<string>, b: seq<string>)
    ensures AfterItems(AfterItems(s, a), b) == AfterItems(s, a + b)
  {
    assert s.items + a + b == s.items + (a + b);
  }

  /** After the items, the collected texts follow the earlier ones in order and the text buffer is empty. */
  lemma {:induction false} ItemsRun(s: Accumulator, texts: seq<string>)
    requires !s.inCodeBlock && texts != []
    ensures RunFrom(s, ItemEvents(texts)) == AfterItems(s, CollectedItems(texts))
    decreases |texts|
  {
    ItemsCons(s, texts);
    var s1 := AfterItems(s, ItemOf(texts[0]));
    assert CollectedItems(texts) == ItemOf(texts[0]) + CollectedItems(texts[1..]);
    if texts[1..] == [] {
      assert ItemEvents(texts[1..]) == [] && CollectedItems(texts[1..]) == [];
      AfterItemsTwice(s, ItemOf(texts[0]), []);
      assert AfterItems(s1, []) == s1;
    } else {
      ItemsRun(s1, texts[1..]);
      AfterItemsTwice(s, ItemOf(texts[0]), CollectedItems(texts[1..]));
    }
  }

  /** A tight list emits one List block of its non-empty items, in order, or nothing when there are none. */
  lemma TightList(s: Accumulator, texts: seq<string>)
    requires !s.inCodeBlock && texts != []
    ensures RunFrom(s, [Start(Tag.List)] + ItemEvents(texts) + [End(Tag.List)]).blocks
         == s.blocks + (if CollectedItems(texts) == [] then [] else [ContentBlock.List(CollectedItems(texts))])
  {
    var s0 := Step(s, Start(Tag.List));
    assert s0 == s.(inList := true, items := []);
    RunFrom1(s, Start(Tag.List));
    RunFromConcat(s, [Start(Tag.List)], ItemEvents(texts));
    RunFromConcat(s, [Start(Tag.List)] + ItemEvents(texts), [End(Tag.List)]);
    ItemsRun(s0, texts);
    var items := CollectedItems(texts);
    assert [] + items == items;
    var s1 := AfterItems(s0, items);
    assert s1 == s0.(items := items, text := "", inListItem := false);
    RunFrom1(s1, End(Tag.List));
    if items == [] {
      assert Step(s1, End(Tag.List)).blocks == s.blocks;
      assert s.blocks + [] == s.blocks;
    } else {
      assert Step(s1, End(Tag.List)).blocks == s.blocks + [ContentBlock.List(items)];
    }
  }

  /**
   * A quote holding one paragraph yields a Paragraph and no Quote: the
   * paragraph's end takes the shared text buffer, so the quote finds it empty.
   */
  lemma QuotedParagraph(s: Accumulator, t: string)
    requires !s.inCodeBlock && !s.inListItem
    ensures RunFrom(s, [Start(BlockQuote)] + [Start(Tag.Paragraph), Text(t), End(Tag.Paragraph)] + [End(BlockQuote)]).blocks
         == s.blocks + (if t == "" then [] else [ContentBlock.Paragraph(Trim(t))])
  {
    var para := [Start(Tag.Paragraph), Text(t), End(Tag.Paragraph)];
    var q := Step(s, Start(BlockQuote));
    assert q == s.(inQuote := true, text := "");
    RunFrom1(s, Start(BlockQuote));
    RunFromConcat(s, [Start(BlockQuote)], para);
    RunFromConcat(s, [Start(BlockQuote)] + para, [End(BlockQuote)]);
    TopLevelParagraph(q, t);
    var p := RunFrom(q, para);
    assert p.text == "" && p.blocks == s.blocks + (if t == "" then [] else [ContentBlock.Paragraph(Trim(t))]);
    RunFrom1(p, End(BlockQuote));
    assert Step(p, End(BlockQuote)) == p.(inQuote := false);
  }

  /**
   * Emptiness is judged before trimming: a heading whose text is a single
   * space yields a Title with empty text.
   */
  lemma BlankHeadingKept()
    ensures Parse([Start(Tag.Heading(1)), Text(" "), End(Tag.Heading(1))]) == [Title(1, "")]
  {
    Heading(Initial, 1, " ");
    assert Trim(" ") == "";
  }

  // ---------------------------------------------------------------------------
  // The unit tests of src/parser/mod.rs, on the events the tokenizer yields
  // ---------------------------------------------------------------------------

  /** The events of `# Title`. */
  const TitleEvents := [Start(Tag.Heading(1)), Text("Title"), End(Tag.Heading(1))]

  /** The events of `Some text`. */
  const TextEvents := [Start(Tag.Paragraph), Text("Some text"), End(Tag.Paragraph)]

  /** The events of a ```` ```rust ```` fence around `fn main() {}`. */
  const RustFenceEvents := [Start(Tag.CodeBlock(Fenced("rust"))), Text("fn main() {}\n"), End(Tag.CodeBlock(Fenced("rust")))]

  /** The state after `# Title`. */
  lemma TitleStep()
    ensures RunFrom(Initial, TitleEvents) == Initial.(blocks := [Title(1, "Title")], headingLevel := 1)
  {
    Heading(Initial, 1, "Title");
    assert Trim("Title") == "Title";
  }

  /** The state after `# Title` and `Some text`. */
  lemma TextStep()
    ensures RunFrom(Initial, TitleEvents + TextEvents)
         == Initial.(blocks := [Title(1, "Title"), ContentBlock.Paragraph("Some text")], headingLevel := 1)
  {
    TitleStep();
    RunFromConcat(Initial, TitleEvents, TextEvents);
    var s1 := Initial.(blocks := [Title(1, "Title")], headingLevel := 1);
    TopLevelParagraph(s1, "Some text");
    assert Trim("Some text") == "Some text";
  }

  /** `test_parse_simple_response`: a Title, a Paragraph and a CodeBlock, in that order. */
  lemma SimpleResponse()
    ensures Parse(TitleEvents + TextEvents + RustFenceEvents)
         == [Title(1, "Title"), ContentBlock.Paragraph("Some text"), ContentBlock.CodeBlock(Some("rust"), "fn main() {}")]
  {
    TextStep();
    RunFromConcat(Initial, TitleEvents + TextEvents, RustFenceEvents);
    var s2 := Initial.(blocks := [Title(1, "Title"), ContentBlock.Paragraph("Some text")], headingLevel := 1);
    FencedCode(s2, Fenced("rust"), "fn main() {}\n");
    assert TrimEnd("fn main() {}\n") == "fn main() {}";
  }

  /** The events of a ```` ```rust ```` fence around `fn test() {}`. */
  const RustTestEvents := [Start(Tag.CodeBlock(Fenced("rust"))), Text("fn test() {}\n"), End(Tag.CodeBlock(Fenced("rust")))]

  /** The events of a ```` ```python ```` fence around `def test(): pass`. */
  const PythonTestEvents := [Start(Tag.CodeBlock(Fenced("python"))), Text("def test(): pass\n"), End(Tag.CodeBlock(Fenced("python")))]

  lemma RustTestStep()
    ensures RunFrom(Initial, RustTestEvents) == Initial.(blocks := [ContentBlock.CodeBlock(Some("rust"), "fn test() {}")])
  {
    FencedCode(Initial, Fenced("rust"), "fn test() {}\n");
    assert TrimEnd("fn test() {}\n") == "fn test() {}";
  }

  lemma TwoFencesParse()
    ensures Parse(RustTestEvents + PythonTestEvents)
         == [ContentBlock.CodeBlock(Some("rust"), "fn test() {}"), ContentBlock.CodeBlock(Some("python"), "def test(): pass")]
  {
    RustTestStep();
    RunFromConcat(Initial, RustTestEvents, PythonTestEvents);
    var s1 := Initial.(blocks := [ContentBlock.CodeBlock(Some("rust"), "fn test() {}")]);
    FencedCode(s1, Fenced("python"), "def test(): pass\n");
    assert TrimEnd("def test(): pass\n") == "def test(): pass";
  }

  /** `test_get_code_blocks`: two fences yield two code blocks, with the languages `rust` and `python`. */
  lemma TwoCodeBlocks()
    ensures CodeBlocks(Parse(RustTestEvents + PythonTestEvents))
         == [(Some("rust"), "fn test() {}"), (Some("python"), "def test(): pass")]
  {
    TwoFencesParse();
    var rust := ContentBlock.CodeBlock(Some("rust"), "fn test() {}");
    var python := ContentBlock.CodeBlock(Some("python"), "def test(): pass");
    assert [rust, python] == [rust] + [python];
    CodeBlocksConcat([rust], [python]);
  }

  /** The events of `# Main Title`, `## Subtitle` and `### Subsubtitle`. */
  const MainTitleEvents := [Start(Tag.Heading(1)), Text("Main Title"), End(Tag.Heading(1))]
  const SubtitleEvents := [Start(Tag.Heading(2)), Text("Subtitle"), End(Tag.Heading(2))]
  const SubsubtitleEvents := [Start(Tag.Heading(3)), Text("Subsubtitle"), End(Tag.Heading(3))]

  lemma MainTitleStep()
    ensures RunFrom(Initial, MainTitleEvents) == Initial.(blocks := [Title(1, "Main Title")], headingLevel := 1)
  {
    Heading(Initial, 1, "Main Title");
    assert Trim("Main Title") == "Main Title";
  }

  lemma SubtitleStep()
    ensures RunFrom(Initial, MainTitleEvents + SubtitleEvents)
         == Initial.(blocks := [Title(1, "Main Title"), Title(2, "Subtitle")], headingLevel := 2)
  {
    MainTitleStep();
    RunFromConcat(Initial, MainTitleEvents, SubtitleEvents);
    Heading(Initial.(blocks := [Title(1, "Main Title")], headingLevel := 1), 2, "Subtitle");
    assert Trim("Subtitle") == "Subtitle";
  }

  lemma ThreeHeadingsParse()
    ensures Parse(MainTitleEvents + SubtitleEvents + SubsubtitleEvents)
         == [Title(1, "Main Title"), Title(2, "Subtitle"), Title(3, "Subsubtitle")]
  {
    SubtitleStep();
    RunFromConcat(Initial, MainTitleEvents + SubtitleEvents, SubsubtitleEvents);
    Heading(Initial.(blocks := [Title(1, "Main Title"), Title(2, "Subtitle")], headingLevel := 2), 3, "Subsubtitle");
    assert Trim("Subsubtitle") == "Subsubtitle";
  }

  /** `test_get_titles`: three headings yield three titles with the levels 1, 2 and 3. */
  lemma ThreeTitles()
    ensures Titles(Parse(MainTitleEvents + SubtitleEvents + SubsubtitleEvents))
         == [(1, "Main Title"), (2, "Subtitle"), (3, "Subsubtitle")]
  {
    ThreeHeadingsParse();
    var t1, t2, t3 := Title(1, "Main Title"), Title(2, "Subtitle"), Title(3, "Subsubtitle");
    assert [t1, t2, t3] == [t1] + ([t2] + [t3]);
    TitlesConcat([t1], [t2] + [t3]);
    TitlesConcat([t2], [t3]);
  }
}
