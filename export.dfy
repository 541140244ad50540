/**
 * The session exporters of `tests/export_e2e.rs`: Markdown, plain text and
 * HTML documents built from a fixed header, one numbered section per entry
 * and, for HTML, a closing footer. Entry fields are copied in verbatim.
 */
module Export {
  import opened Strings

  datatype ExportEntry = ExportEntry(timestamp: string, userPrompt: string, aiResponse: string, provider: string)

  /** The document formats built from strings; JSON, the fourth format, is not modelled. */
  datatype ExportFormat = Markdown | PlainText | Html

  const MarkdownHeader := "# Vibe Coder Session Export\n\n"

  /** The width of the plain-text rules. */
  const RuleWidth := 80

  /** 80 '=' under the plain-text title, and 80 '-' after every plain-text section. */
  const TextRule := Repeat('=', RuleWidth)
  const TextSeparator := Repeat('-', RuleWidth)

  const TextTitle := "VIBE CODER SESSION EXPORT\n"

  const TextHeader := TextTitle + TextRule + "\n\n"

  const HtmlDoctype := "<!DOCTYPE html>"

  /** The lines `export_to_html` pushes after the doctype and before the first entry. */
  const HtmlHeadLines: seq<string> := [
    "\n<html>\n<head>\n",
    "<title>Vibe Coder Session Export</title>\n",
    "<style>\n",
    "body { font-family: Arial, sans-serif; max-width: 800px; margin: 0 auto; padding: 20px; }\n",
    ".interaction { margin-bottom: 30px; border: 1px solid #ccc; padding: 15px; }\n",
    ".timestamp { color: #666; font-size: 0.9em; }\n",
    ".prompt { background: #f0f0f0; padding: 10px; margin: 10px 0; }\n",
    ".response { background: #e8f4f8; padding: 10px; margin: 10px 0; }\n",
    "</style>\n</head>\n<body>\n",
    "<h1>Vibe Coder Session Export</h1>\n"
  ]

  /** Pushing `ls` one after the other. */
  function Concat(ls: seq<string>): string {
    if ls == [] then "" else Concat(ls[..|ls| - 1]) + ls[|ls| - 1]
  }

  const HtmlHead := Concat(HtmlHeadLines)

  const HtmlHeader := HtmlDoctype + HtmlHead

  const HtmlFooter := "</body>\n</html>"

  function Header(f: ExportFormat): string {
    match f
    case Markdown => MarkdownHeader
    case PlainText => TextHeader
    case Html => HtmlHeader
  }

  function Footer(f: ExportFormat): string {
    if f == Html then HtmlFooter else ""
  }

  /** The numbered heading that opens section `n` (inside its `interaction` division, for HTML). */
  function Heading(f: ExportFormat, n: nat): string {
    match f
    case Markdown => "## Interaction " + NatToString(n)
    case PlainText => "INTERACTION #" + NatToString(n)
    case Html => "<h2>Interaction " + NatToString(n)
  }

  /**
   * Section `n` (counted from 1) for entry `e`: the strings the exporter
   * pushes for one entry, in the order it pushes them.
   */
  function Section(f: ExportFormat, n: nat, e: ExportEntry): string {
    match f
    case Markdown =>
      (Heading(Markdown, n) + "\n\n")
      + ("**Timestamp:** " + e.timestamp + "\n\n")
      + ("**Provider:** " + e.provider + "\n\n")
      + ("### User Prompt\n\n" + e.userPrompt + "\n\n")
      + ("### AI Response\n\n" + e.aiResponse + "\n\n")
      + "---\n\n"
    case PlainText =>
      (Heading(PlainText, n) + "\n")
      + ("Timestamp: " + e.timestamp + "\n")
      + ("Provider: " + e.provider + "\n\n")
      + ("USER:\n" + e.userPrompt + "\n\n")
      + ("AI:\n" + e.aiResponse + "\n\n")
      + TextSeparator
      + "\n\n"
    case Html =>
      "<div class=\"interaction\">\n"
      + (Heading(Html, n) + "</h2>\n")
      + ("<div class=\"timestamp\">Timestamp: " + e.timestamp + " | Provider: " + e.provider + "</div>\n")
      + ("<div class=\"prompt\"><strong>User:</strong><br>" + e.userPrompt + "</div>\n")
      + ("<div class=\"response\"><strong>AI:</strong><br>" + e.aiResponse + "</div>\n")
      + "</div>\n"
  }

  /** The section builder of one format. */
  function SectionOf(f: ExportFormat): (nat, ExportEntry) -> string {
    (n: nat, e: ExportEntry) => Section(f, n, e)
  }

  /** The sections `section` builds for `es`, numbered from `k + 1`. */
  function Sections(section: (nat, ExportEntry) -> string, es: seq<ExportEntry>, k: nat): string {
    if es == [] then ""
    else Sections(section, es[..|es| - 1], k) + section(k + |es|, es[|es| - 1])
  }

  /** The whole document for `es`: header, one section per entry, footer. */
  function Document(f: ExportFormat, es: seq<ExportEntry>): string {
    Header(f) + Sections(SectionOf(f), es, 0) + Footer(f)
  }

  // Sequence algebra on arbitrary strings, used so that the format-specific
  // proofs never reason about the contents of the fixed texts.

  lemma Associative(a: string, b: string, c: string)
    ensures a + (b + c) == a + b + c
  {
  }

  lemma Append6(s: string, p1: string, p2: string, p3: string, p4: string, p5: string, p6: string)
    ensures s + p1 + p2 + p3 + p4 + p5 + p6 == s + (p1 + p2 + p3 + p4 + p5 + p6)
  {
  }

  lemma Append7(s: string, p1: string, p2: string, p3: string, p4: string, p5: string, p6: string, p7: string)
    ensures s + p1 + p2 + p3 + p4 + p5 + p6 + p7 == s + (p1 + p2 + p3 + p4 + p5 + p6 + p7)
  {
  }

  /** A string occurs at the start of any extension of it. */
  lemma ContainsPrefix(q: string, b: string)
    ensures Contains(q + b, q)
  {
    ContainsInfix([], q, b);
    assert [] + q + b == q + b;
  }

  /** Pieces one, two, four and five of a concatenation of six occur in it. */
  lemma PiecesOf6(p1: string, p2: string, p3: string, p4: string, p5: string, p6: string)
    ensures var s := p1 + p2 + p3 + p4 + p5 + p6;
            Contains(s, p1) && Contains(s, p2) && Contains(s, p4) && Contains(s, p5)
  {
    var s := p1 + p2 + p3 + p4 + p5 + p6;
    assert s == p1 + (p2 + p3 + p4 + p5 + p6);
    ContainsPrefix(p1, p2 + p3 + p4 + p5 + p6);
    assert s == p1 + p2 + (p3 + p4 + p5 + p6);
    ContainsInfix(p1, p2, p3 + p4 + p5 + p6);
    assert s == p1 + p2 + p3 + p4 + (p5 + p6);
    ContainsInfix(p1 + p2 + p3, p4, p5 + p6);
    ContainsInfix(p1 + p2 + p3 + p4, p5, p6);
  }

  /** Pieces one, four and five of a concatenation of seven occur in it. */
  lemma PiecesOf7(p1: string, p2: string, p3: string, p4: string, p5: string, p6: string, p7: string)
    ensures var s := p1 + p2 + p3 + p4 + p5 + p6 + p7;
            Contains(s, p1) && Contains(s, p4) && Contains(s, p5)
  {
    var s := p1 + p2 + p3 + p4 + p5 + p6 + p7;
    assert s == p1 + (p2 + p3 + p4 + p5 + p6 + p7);
    ContainsPrefix(p1, p2 + p3 + p4 + p5 + p6 + p7);
    assert s == p1 + p2 + p3 + p4 + (p5 + p6 + p7);
    ContainsInfix(p1 + p2 + p3, p4, p5 + p6 + p7);
    assert s == p1 + p2 + p3 + p4 + p5 + (p6 + p7);
    ContainsInfix(p1 + p2 + p3 + p4, p5, p6 + p7);
  }

  /** The sections of a concatenation are the sections of each part, the second part numbered on. */
  lemma {:induction false} SectionsConcat(section: (nat, ExportEntry) -> string, a: seq<ExportEntry>, b: seq<ExportEntry>, k: nat)
    ensures Sections(section, a + b, k) == Sections(section, a, k) + Sections(section, b, k + |a|)
  {
    if b == [] {
      assert a + b == a;
    } else {
      var init := b[..|b| - 1];
      assert (a + b)[..|a + b| - 1] == a + init;
      assert (a + b)[|a + b| - 1] == b[|b| - 1];
      SectionsConcat(section, a, init, k);
    }
  }

  /** One more entry adds its section at the end. */
  lemma SectionsSnoc(section: (nat, ExportEntry) -> string, es: seq<ExportEntry>, i: nat)
    requires i < |es|
    ensures Sections(section, es[..i + 1], 0) == Sections(section, es[..i], 0) + section(i + 1, es[i])
  {
    assert es[..i + 1][..i] == es[..i];
  }

  /** Appending section `i + 1` to the document so far gives the document with entry `i`. */
  lemma PushSection(h: string, section: (nat, ExportEntry) -> string, es: seq<ExportEntry>, i: nat, before: string)
    requires i < |es| && before == h + Sections(section, es[..i], 0)
    ensures before + section(i + 1, es[i]) == h + Sections(section, es[..i + 1], 0)
  {
    SectionsSnoc(section, es, i);
    Associative(h, Sections(section, es[..i], 0), section(i + 1, es[i]));
  }

  /** Every entry's section, numbered by its position, is part of the sections. */
  lemma {:induction false} SectionsContain(section: (nat, ExportEntry) -> string, es: seq<ExportEntry>, i: nat)
    requires i < |es|
    ensures Contains(Sections(section, es, 0), section(i + 1, es[i]))
  {
    var init, last := es[..|es| - 1], section(|es|, es[|es| - 1]);
    if i == |es| - 1 {
      ContainsInfix(Sections(section, init, 0), last, []);
      assert Sections(section, init, 0) + last + [] == Sections(section, es, 0);
    } else {
      SectionsContain(section, init, i);
      assert init[i] == es[i];
      ContainsWiden([], Sections(section, init, 0), last, section(i + 1, es[i]));
      assert [] + Sections(section, init, 0) + last == Sections(section, es, 0);
    }
  }

  /** Every section stays contained when text is put before and after the sections. */
  lemma SectionInFrame(h: string, section: (nat, ExportEntry) -> string, es: seq<ExportEntry>, t: string, i: nat)
    requires i < |es|
    ensures Contains(h + Sections(section, es, 0) + t, section(i + 1, es[i]))
  {
    SectionsContain(section, es, i);
    ContainsWiden(h, Sections(section, es, 0), t, section(i + 1, es[i]));
  }

  /** Every entry's section is part of the document. */
  lemma ContainsSection(f: ExportFormat, es: seq<ExportEntry>, i: nat)
    requires i < |es|
    ensures Contains(Document(f, es), Section(f, i + 1, es[i]))
  {
    SectionInFrame(Header(f), SectionOf(f), es, Footer(f), i);
  }

  /** The heading, the prompt and the response occur in their section. */
  lemma PiecesOfSection(f: ExportFormat, n: nat, e: ExportEntry)
    ensures Contains(Section(f, n, e), Heading(f, n))
    ensures Contains(Section(f, n, e), e.userPrompt)
    ensures Contains(Section(f, n, e), e.aiResponse)
  {
    match f {
      case Markdown => MarkdownPieces(n, e);
      case PlainText => TextPieces(n, e);
      case Html => HtmlPieces(n, e);
    }
  }

  lemma MarkdownPieces(n: nat, e: ExportEntry)
    ensures Contains(Section(Markdown, n, e), Heading(Markdown, n))
    ensures Contains(Section(Markdown, n, e), e.userPrompt)
    ensures Contains(Section(Markdown, n, e), e.aiResponse)
  {
    var s, h := Section(Markdown, n, e), Heading(Markdown, n);
    var p1, p4, p5 := h + "\n\n", "### User Prompt\n\n" + e.userPrompt + "\n\n",
                      "### AI Response\n\n" + e.aiResponse + "\n\n";
    PiecesOf6(p1, "**Timestamp:** " + e.timestamp + "\n\n", "**Provider:** " + e.provider + "\n\n",
              p4, p5, "---\n\n");
    ContainsPrefix(h, "\n\n");
    ContainsInfix("### User Prompt\n\n", e.userPrompt, "\n\n");
    ContainsInfix("### AI Response\n\n", e.aiResponse, "\n\n");
    ContainsTrans(s, p1, h);
    ContainsTrans(s, p4, e.userPrompt);
    ContainsTrans(s, p5, e.aiResponse);
  }

  lemma TextPieces(n: nat, e: ExportEntry)
    ensures Contains(Section(PlainText, n, e), Heading(PlainText, n))
    ensures Contains(Section(PlainText, n, e), e.userPrompt)
    ensures Contains(Section(PlainText, n, e), e.aiResponse)
  {
    var s, h := Section(PlainText, n, e), Heading(PlainText, n);
    var p1, p4, p5 := h + "\n", "USER:\n" + e.userPrompt + "\n\n", "AI:\n" + e.aiResponse + "\n\n";
    PiecesOf7(p1, "Timestamp: " + e.timestamp + "\n", "Provider: " + e.provider + "\n\n",
              p4, p5, TextSeparator, "\n\n");
    ContainsPrefix(h, "\n");
    ContainsInfix("USER:\n", e.userPrompt, "\n\n");
    ContainsInfix("AI:\n", e.aiResponse, "\n\n");
    ContainsTrans(s, p1, h);
    ContainsTrans(s, p4, e.userPrompt);
    ContainsTrans(s, p5, e.aiResponse);
  }

  lemma HtmlPieces(n: nat, e: ExportEntry)
    ensures Contains(Section(Html, n, e), Heading(Html, n))
    ensures Contains(Section(Html, n, e), e.userPrompt)
    ensures Contains(Section(Html, n, e), e.aiResponse)
  {
    var s, h := Section(Html, n, e), Heading(Html, n);
    var p2 := h + "</h2>\n";
    var p4 := "<div class=\"prompt\"><strong>User:</strong><br>" + e.userPrompt + "</div>\n";
    var p5 := "<div class=\"response\"><strong>AI:</strong><br>" + e.aiResponse + "</div>\n";
    PiecesOf6("<div class=\"interaction\">\n", p2,
              "<div class=\"timestamp\">Timestamp: " + e.timestamp + " | Provider: " + e.provider + "</div>\n",
              p4, p5, "</div>\n");
    ContainsPrefix(h, "</h2>\n");
    ContainsInfix("<div class=\"prompt\"><strong>User:</strong><br>", e.userPrompt, "</div>\n");
    ContainsInfix("<div class=\"response\"><strong>AI:</strong><br>", e.aiResponse, "</div>\n");
    ContainsTrans(s, p2, h);
    ContainsTrans(s, p4, e.userPrompt);
    ContainsTrans(s, p5, e.aiResponse);
  }

  /** Whatever a section contains stays contained when text is put before and after the sections. */
  lemma PieceInFrame(h: string, section: (nat, ExportEntry) -> string, es: seq<ExportEntry>, t: string, i: nat, q: string)
    requires i < |es| && Contains(section(i + 1, es[i]), q)
    ensures Contains(h + Sections(section, es, 0) + t, q)
  {
    SectionInFrame(h, section, es, t, i);
    ContainsTrans(h + Sections(section, es, 0) + t, section(i + 1, es[i]), q);
  }

  /** Prompts and responses are copied verbatim: each entry's prompt and response occur in the document. */
  lemma ContainsEntryText(f: ExportFormat, es: seq<ExportEntry>, i: nat)
    requires i < |es|
    ensures Contains(Document(f, es), es[i].userPrompt)
    ensures Contains(Document(f, es), es[i].aiResponse)
  {
    PiecesOfSection(f, i + 1, es[i]);
    PieceInFrame(Header(f), SectionOf(f), es, Footer(f), i, es[i].userPrompt);
    PieceInFrame(Header(f), SectionOf(f), es, Footer(f), i, es[i].aiResponse);
  }

  /** Every entry is announced by its number: "## Interaction n", "INTERACTION #n" or "<h2>Interaction n". */
  lemma ContainsNumberedHeading(f: ExportFormat, es: seq<ExportEntry>, i: nat)
    requires i < |es|
    ensures Contains(Document(f, es), Heading(f, i + 1))
  {
    PiecesOfSection(f, i + 1, es[i]);
    PieceInFrame(Header(f), SectionOf(f), es, Footer(f), i, Heading(f, i + 1));
  }

  /** Without a footer, exporting more entries extends the document by their sections. */
  lemma ExportExtends(f: ExportFormat, es: seq<ExportEntry>, more: seq<ExportEntry>)
    requires f != Html
    ensures Document(f, es + more) == Document(f, es) + Sections(SectionOf(f), more, |es|)
  {
    var h := Header(f);
    Extends(h, SectionOf(f), es, more);
    NoFooter(h + Sections(SectionOf(f), es + more, 0));
    NoFooter(h + Sections(SectionOf(f), es, 0));
  }

  lemma Extends(h: string, section: (nat, ExportEntry) -> string, es: seq<ExportEntry>, more: seq<ExportEntry>)
    ensures h + Sections(section, es + more, 0) == h + Sections(section, es, 0) + Sections(section, more, |es|)
  {
    var a, b := Sections(section, es, 0), Sections(section, more, |es|);
    SectionsConcat(section, es, more, 0);
    assert Sections(section, es + more, 0) == a + b;
    Associative(h, a, b);
  }

  lemma NoFooter(s: string)
    ensures s + "" == s
  {
  }

  /** The first piece starts a concatenation and the last one ends it. */
  lemma FrameOf(a: string, b: string, c: string, d: string)
    ensures a <= a + b + c + d
    ensures (a + b + c + d)[|a + b + c|..] == d
  {
    assert a + b + c + d == a + (b + c + d);
  }

  /** The HTML document opens with the doctype and closes the body and the page. */
  lemma HtmlFrame(es: seq<ExportEntry>)
    ensures "<!DOCTYPE html>" <= Document(Html, es)
    ensures |HtmlFooter| <= |Document(Html, es)|
    ensures Document(Html, es)[|Document(Html, es)| - |HtmlFooter|..] == "</body>\n</html>"
  {
    var body := Sections(SectionOf(Html), es, 0);
    FrameOf(HtmlDoctype, HtmlHead, body, HtmlFooter);
  }

  /** The plain-text document opens with its title over a rule of 80 '='. */
  lemma TextFrame(es: seq<ExportEntry>)
    ensures "VIBE CODER SESSION EXPORT\n" + Repeat('=', 80) + "\n\n" <= Document(PlainText, es)
  {
    var body := Sections(SectionOf(PlainText), es, 0);
    FrameOf(TextHeader, body, [], []);
  }

  /** Each plain-text section ends with 80 '-' and a blank line. */
  lemma TextSectionEnd(n: nat, e: ExportEntry)
    ensures var s := Section(PlainText, n, e);
            |s| >= 82 && s[|s| - 82..] == Repeat('-', 80) + "\n\n"
  {
    var front := (Heading(PlainText, n) + "\n") + ("Timestamp: " + e.timestamp + "\n")
                 + ("Provider: " + e.provider + "\n\n") + ("USER:\n" + e.userPrompt + "\n\n")
                 + ("AI:\n" + e.aiResponse + "\n\n");
    FrameOf(front, [], TextSeparator, "\n\n");
  }

  /** A markdown section opens with its numbered heading and a blank line and closes with a rule. */
  lemma MarkdownSectionFrame(n: nat, e: ExportEntry)
    ensures var s := Section(Markdown, n, e);
            "## Interaction " + NatToString(n) + "\n\n" <= s && |s| >= 5 && s[|s| - 5..] == "---\n\n"
  {
    var front := ("## Interaction " + NatToString(n) + "\n\n");
    var middle := ("**Timestamp:** " + e.timestamp + "\n\n") + ("**Provider:** " + e.provider + "\n\n")
                  + ("### User Prompt\n\n" + e.userPrompt + "\n\n") + ("### AI Response\n\n" + e.aiResponse + "\n\n");
    FrameOf(front, middle, [], "---\n\n");
  }

  /** Without entries, each exporter yields its header and footer alone. */
  lemma EmptyExport(f: ExportFormat)
    ensures Document(f, []) == Header(f) + Footer(f)
  {
    assert Sections(SectionOf(f), [], 0) == [];
  }

  /** `test_export_empty_entries`: the markdown export of no entries is its title line alone. */
  lemma EmptyMarkdownExport()
    ensures Document(Markdown, []) == "# Vibe Coder Session Export\n\n"
  {
    EmptyExport(Markdown);
  }

  /** The pushes of `export_to_markdown` for the entry numbered `n`. */
  method PushMarkdownSection(output: string, n: nat, entry: ExportEntry) returns (o: string)
    ensures o == output + Section(Markdown, n, entry)
  {
    o := output;
    o := o + ("## Interaction " + NatToString(n) + "\n\n");
    o := o + ("**Timestamp:** " + entry.timestamp + "\n\n");
    o := o + ("**Provider:** " + entry.provider + "\n\n");
    o := o + ("### User Prompt\n\n" + entry.userPrompt + "\n\n");
    o := o + ("### AI Response\n\n" + entry.aiResponse + "\n\n");
    o := o + "---\n\n";
    Append6(output, "## Interaction " + NatToString(n) + "\n\n", "**Timestamp:** " + entry.timestamp + "\n\n",
            "**Provider:** " + entry.provider + "\n\n", "### User Prompt\n\n" + entry.userPrompt + "\n\n",
            "### AI Response\n\n" + entry.aiResponse + "\n\n", "---\n\n");
  }

  /** The pushes of `export_to_text` for the entry numbered `n`. */
  method PushTextSection(output: string, n: nat, entry: ExportEntry) returns (o: string)
    ensures o == output + Section(PlainText, n, entry)
  {
    o := output;
    o := o + ("INTERACTION #" + NatToString(n) + "\n");
    o := o + ("Timestamp: " + entry.timestamp + "\n");
    o := o + ("Provider: " + entry.provider + "\n\n");
    o := o + ("USER:\n" + entry.userPrompt + "\n\n");
    o := o + ("AI:\n" + entry.aiResponse + "\n\n");
    o := o + Repeat('-', RuleWidth);
    o := o + "\n\n";
    Append7(output, "INTERACTION #" + NatToString(n) + "\n", "Timestamp: " + entry.timestamp + "\n",
            "Provider: " + entry.provider + "\n\n", "USER:\n" + entry.userPrompt + "\n\n",
            "AI:\n" + entry.aiResponse + "\n\n", TextSeparator, "\n\n");
  }

  /** The pushes of `export_to_html` for the entry numbered `n`. */
  method PushHtmlSection(output: string, n: nat, entry: ExportEntry) returns (o: string)
    ensures o == output + Section(Html, n, entry)
  {
    o := output;
    o := o + "<div class=\"interaction\">\n";
    o := o + ("<h2>Interaction " + NatToString(n) + "</h2>\n");
    o := o + ("<div class=\"timestamp\">Timestamp: " + entry.timestamp + " | Provider: " + entry.provider + "</div>\n");
    o := o + ("<div class=\"prompt\"><strong>User:</strong><br>" + entry.userPrompt + "</div>\n");
    o := o + ("<div class=\"response\"><strong>AI:</strong><br>" + entry.aiResponse + "</div>\n");
    o := o + "</div>\n";
    Append6(output, "<div class=\"interaction\">\n", "<h2>Interaction " + NatToString(n) + "</h2>\n",
            "<div class=\"timestamp\">Timestamp: " + entry.timestamp + " | Provider: " + entry.provider + "</div>\n",
            "<div class=\"prompt\"><strong>User:</strong><br>" + entry.userPrompt + "</div>\n",
            "<div class=\"response\"><strong>AI:</strong><br>" + entry.aiResponse + "</div>\n", "</div>\n");
  }

  /** `export_to_markdown`: the header, then for each entry the pieces of its section in turn. */
  method ExportToMarkdown(entries: seq<ExportEntry>) returns (output: string)
    ensures output == Document(Markdown, entries)
  {
    output := MarkdownHeader;
    for i := 0 to |entries|
      invariant output == MarkdownHeader + Sections(SectionOf(Markdown), entries[..i], 0)
    {
      ghost var before := output;
      output := PushMarkdownSection(output, i + 1, entries[i]);
      PushSection(MarkdownHeader, SectionOf(Markdown), entries, i, before);
    }
    assert entries[..|entries|] == entries;
    assert output + [] == output;
  }

  /** `export_to_text`: the title and rule, then for each entry the pieces of its section in turn. */
  method ExportToText(entries: seq<ExportEntry>) returns (output: string)
    ensures output == Document(PlainText, entries)
  {
    output := "VIBE CODER SESSION EXPORT\n";
    output := output + Repeat('=', RuleWidth);
    output := output + "\n\n";
    for i := 0 to |entries|
      invariant output == TextHeader + Sections(SectionOf(PlainText), entries[..i], 0)
    {
      ghost var before := output;
      output := PushTextSection(output, i + 1, entries[i]);
      PushSection(TextHeader, SectionOf(PlainText), entries, i, before);
    }
    assert entries[..|entries|] == entries;
    assert output + [] == output;
  }

  /** `export_to_html`: the page head, one `interaction` division per entry, then the footer. */
  method ExportToHtml(entries: seq<ExportEntry>) returns (output: string)
    ensures output == Document(Html, entries)
  {
    output := HtmlHeader;
    for i := 0 to |entries|
      invariant output == HtmlHeader + Sections(SectionOf(Html), entries[..i], 0)
    {
      ghost var before := output;
      output := PushHtmlSection(output, i + 1, entries[i]);
      PushSection(HtmlHeader, SectionOf(Html), entries, i, before);
    }
    assert entries[..|entries|] == entries;
    output := output + HtmlFooter;
  }
}
