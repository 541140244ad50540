/**
 * The two plugins of `src/plugins/sample_plugins.rs`: their metadata, their
 * capabilities, and the string transforms their hooks apply once the
 * `enabled` flag has been set by `initialize`.
 */
module SamplePlugins {
  import opened Common
  import opened Strings
  import opened PluginApi

  const UppercaseMetadata := PluginMetadata(
    "Uppercase Converter", "0.1.0", "Converts input text to uppercase", "Vibe Coder Team")

  const CodeFormatterMetadata := PluginMetadata(
    "Code Formatter", "0.1.0", "Adds syntax highlighting hints to code blocks", "Vibe Coder Team")

  const UppercaseCapabilities := [PluginCapability.PreProcessor]

  const CodeFormatterCapabilities := [PluginCapability.PostProcessor, PluginCapability.CodeFormatter]

  /** The error both hooks return before `initialize`. */
  const NotInitialized := ProcessingError("Plugin not initialized")

  /** A markdown code fence. */
  const Fence := "```"

  /** The marker the code formatter writes after every fence. */
  const FormatterNote := "// Formatted by Code Formatter Plugin"

  /** What replaces each fence. */
  const MarkedFence := Fence + "\n" + FormatterNote + "\n"

  /** `UppercasePlugin::pre_process`: refuses before `initialize`, then upper-cases. */
  function UppercasePreProcess(enabled: bool, input: string): (r: Result<string, PluginError>)
    ensures r.Err? <==> !enabled
    ensures r.Err? ==> r.error == NotInitialized
    ensures r.Ok? ==> |r.value| == |input|
  {
    if !enabled then Err(NotInitialized) else Ok(ToUpper(input))
  }

  /** `CodeFormatterPlugin::post_process`: refuses before `initialize`, then marks every fence. */
  function CodeFormatterPostProcess(enabled: bool, response: string): (r: Result<string, PluginError>)
    ensures r.Err? <==> !enabled
    ensures r.Err? ==> r.error == NotInitialized
  {
    if !enabled then Err(NotInitialized) else Ok(Replace(response, Fence, MarkedFence))
  }

  /**
   * Once enabled, the upper-caser maps each lower-case ASCII letter to its capital,
   * keeps every other character, and leaves no lower-case ASCII letter.
   */
  lemma UppercaseOutput(input: string)
    ensures UppercasePreProcess(true, input).Ok?
    ensures var out := UppercasePreProcess(true, input).value;
            forall i :: 0 <= i < |input| ==>
              !('a' <= out[i] <= 'z') && (('a' <= input[i] <= 'z') || out[i] == input[i]) &&
              ('a' <= input[i] <= 'z' ==> out[i] == (input[i] as int - 'a' as int + 'A' as int) as char)
  {
    ToUpperNoLower(input);
  }

  /** Upper-casing an already processed input changes nothing more. */
  lemma UppercaseIdempotent(input: string)
    ensures UppercasePreProcess(true, UppercasePreProcess(true, input).value) == UppercasePreProcess(true, input)
  {
    ToUpperIdempotent(input);
  }

  /** A response with a fence comes back carrying the formatter's marker. */
  lemma FormatterMarksFences(response: string)
    requires Contains(response, Fence)
    ensures CodeFormatterPostProcess(true, response).Ok?
    ensures Contains(CodeFormatterPostProcess(true, response).value, FormatterNote)
  {
    ReplacePresent(response, Fence, MarkedFence);
    ContainsInfix(Fence + "\n", FormatterNote, "\n");
    ContainsTrans(Replace(response, Fence, MarkedFence), MarkedFence, FormatterNote);
  }

  /**
   * The formatter works left to right: the text before the first fence is kept,
   * that fence becomes the marked fence, and the rest is formatted on its own.
   */
  lemma FormatterMarksFirstFence(before: string, after: string)
    requires forall i :: 0 <= i < |before| ==> !OccursAt(before + Fence + after, Fence, i)
    ensures CodeFormatterPostProcess(true, before + Fence + after)
            == Ok(before + MarkedFence + Replace(after, Fence, MarkedFence))
  {
    ReplaceFirst(before, Fence, after, MarkedFence);
  }

  /** A response without a fence comes back unchanged. */
  lemma FormatterKeepsPlainText(response: string)
    requires !Contains(response, Fence)
    ensures CodeFormatterPostProcess(true, response) == Ok(response)
  {
    ReplaceAbsent(response, Fence, MarkedFence);
  }

  /** `test_uppercase_plugin`: "hello world" becomes "HELLO WORLD". */
  lemma UppercaseHelloWorld()
    ensures UppercasePreProcess(true, "hello world") == Ok("HELLO WORLD")
  {
    assert ToUpper("hello world") == "HELLO WORLD";
  }

  /** No backquote occurs in `s`. */
  predicate NoBackquote(s: string) {
    forall k :: 0 <= k < |s| ==> s[k] != '`'
  }

  /** Text around two fences, itself without backquotes, gets both fences marked. */
  lemma FormatterTwoFences(a: string, b: string, c: string)
    requires NoBackquote(a) && NoBackquote(b) && NoBackquote(c)
    ensures CodeFormatterPostProcess(true, a + Fence + b + Fence + c)
            == Ok(a + MarkedFence + b + MarkedFence + c)
  {
    var rest := b + Fence + c;
    assert a + Fence + b + Fence + c == a + Fence + rest;
    NoOccurrenceBefore(a + Fence + rest, Fence, |a|);
    FormatterMarksFirstFence(a, rest);
    NoOccurrenceBefore(b + Fence + c, Fence, |b|);
    ReplaceFirst(b, Fence, c, MarkedFence);
    NoOccurrenceBefore(c, Fence, |c| + 1);
    ReplaceAbsent(c, Fence, MarkedFence);
    assert a + MarkedFence + (b + MarkedFence + c) == a + MarkedFence + b + MarkedFence + c;
  }

  /**
   * `test_code_formatter_plugin`: the fenced response comes back with the marker,
   * written after each of its two fences.
   */
  lemma FormatterOnFencedResponse()
    ensures CodeFormatterPostProcess(true, "Some text\n```rust\ncode\n```\nMore text")
            == Ok("Some text\n" + MarkedFence + "rust\ncode\n" + MarkedFence + "\nMore text")
    ensures Contains(CodeFormatterPostProcess(true, "Some text\n```rust\ncode\n```\nMore text").value, FormatterNote)
  {
    var a, b, c := "Some text\n", "rust\ncode\n", "\nMore text";
    assert "Some text\n```rust\ncode\n```\nMore text" == a + Fence + b + Fence + c;
    FormatterTwoFences(a, b, c);
    MarkCarriesNote(a, b + MarkedFence + c);
    assert a + MarkedFence + b + MarkedFence + c == a + MarkedFence + (b + MarkedFence + c);
  }

  /** Text with a marked fence in it carries the formatter's note. */
  lemma MarkCarriesNote(a: string, rest: string)
    ensures Contains(a + MarkedFence + rest, FormatterNote)
  {
    assert a + MarkedFence + rest == (a + Fence + "\n") + FormatterNote + ("\n" + rest);
    ContainsInfix(a + Fence + "\n", FormatterNote, "\n" + rest);
  }
}
