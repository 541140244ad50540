# vibe-coder core, modelled in Dafny

vibe-coder is a desktop assistant that sends a prompt to an AI provider and shows the
markdown answer as typed blocks. This project models its core and proves properties of
the model:

- **The block accumulator** (`src/parser/mod.rs`). `parse_response` makes one pass over
  the markdown tokenizer's events. It folds them into a `ParsedResponse` of Title,
  Paragraph, CodeBlock, List and Quote blocks. The events are a `seq<Event>` supplied
  by the caller. The pure specification `Step` / `RunFrom` works on an `Accumulator`
  record. The imperative loop `ParseResponse` drives a `BlockAccumulator` object whose
  fields are the function's locals, and it is proved to compute `Parse`.
- **The plugin pipeline** (`src/plugins/mod.rs`, `src/plugins/sample_plugins.rs`).
  Plugin objects carry an `enabled` flag. The registry maps names to plugins.
  `pre_process_all` / `post_process_all` thread a string through every plugin and stop
  at the first error.
- **Provider selection** (`src/ai_providers/mod.rs`, `wails-app/main.go`). An
  append-only provider list with an active index. The first provider added becomes
  active, and an out-of-range selection is refused without a change. The mock provider
  is a configured/unconfigured state machine.
- **The bounded session history** (`tests/session_history_e2e.rs`). A queue that drops
  its oldest entry when full, with lookup by id and substring search.
- **The session exporters** (`tests/export_e2e.rs`). String builders for Markdown,
  plain text and HTML: a header, one section per entry, and a footer for HTML.

Files: `common.dfy` (Option, Result), `strings.dfy` (Rust's `trim`/`trim_end`,
`contains`, `replace`, `repeat`, decimal formatting, ASCII upper-casing),
`markdown.dfy`, `markdown_props.dfy`, `plugin_api.dfy`, `sample_plugins.dfy`,
`plugins.dfy`, `ai_providers.dfy`, `session_history.dfy`, `export.dfy`,
`wails_app.dfy`.

Three details of `src/parser/mod.rs` that the model keeps as written:

- Heading, paragraph, item and quote text is tested for emptiness **before** trimming
  (lines 122, 132, 161, 168). A buffer of blanks therefore yields a block with empty
  text (`MarkdownProps.BlankHeadingKept`).
- A fence's language string is recorded verbatim, not trimmed (line 100).
- The text buffer is cleared at the end of a heading, paragraph, item or quote only when
  something was taken from it (lines 127, 136, 163, 173).

## Model

| member | source | states |
|---|---|---|
| Markdown.Titles | src/parser/mod.rs:43-54 | `get_titles` yields no more pairs than there are blocks; what it yields is stated by `TitlesConcat` (order kept over concatenation) and `TitlesMembership` (a pair occurs exactly when a `Title` block with that level and text does) |
| Markdown.TitlesConcat | src/parser/mod.rs:43-54 | `get_titles` of a concatenation is the concatenation of the two results, so block order is kept |
| Markdown.TitlesMembership | src/parser/mod.rs:43-54 | `(level, text)` is a title exactly when `Title(level, text)` is a block (both directions) |
| Markdown.CodeBlocks | src/parser/mod.rs:29-40 | `get_code_blocks` yields no more pairs than there are blocks; what it yields is stated by `CodeBlocksConcat` (order kept over concatenation) and `CodeBlocksMembership` (a pair occurs exactly when a `CodeBlock` block with that language and code does) |
| Markdown.CodeBlocksConcat | src/parser/mod.rs:29-40 | `get_code_blocks` distributes over concatenation, so block order is kept |
| Markdown.CodeBlocksMembership | src/parser/mod.rs:29-40 | `(language, code)` is listed exactly when that CodeBlock is a block (both directions) |
| Markdown.ParsedResponse.constructor | src/parser/mod.rs:20-22 | a new response has no blocks |
| Markdown.ParsedResponse.AddBlock | src/parser/mod.rs:24-26 | the block is appended, the earlier blocks are kept |
| Markdown.LanguageOf | src/parser/mod.rs:95-104 | the language is `Some(info)`, verbatim, exactly for a fenced block with non-empty info; otherwise `None` |
| Markdown.StartScope | src/parser/mod.rs:82-119 | a Start event emits no block |
| Markdown.EndScope | src/parser/mod.rs:120-177 | an End event keeps the earlier blocks as a prefix and emits at most one block |
| Markdown.AddText | src/parser/mod.rs:178-184 | a Text event emits no block |
| Markdown.AddBreak | src/parser/mod.rs:190-196 | a break emits no block |
| Markdown.Step | src/parser/mod.rs:81-198 | blocks are only appended: at most one per End event, none for other events; unmatched events (`_ => {}`) change nothing |
| Markdown.RunFrom | src/parser/mod.rs:80-199 | over any event sequence the earlier blocks stay a prefix, and at most one block is added per End event |
| Markdown.BlockAccumulator.constructor | src/parser/mod.rs:65-78 | the locals start empty and false, with no blocks |
| Markdown.BlockAccumulator.OnStart | src/parser/mod.rs:82-119 | the new state is `StartScope` of the old one |
| Markdown.BlockAccumulator.OpenCodeBlock | src/parser/mod.rs:92-104 | a code block opens with an empty code buffer and the language of `LanguageOf` |
| Markdown.BlockAccumulator.CloseHeadingScope | src/parser/mod.rs:121-130 | the new state is `CloseHeading` of the old one |
| Markdown.BlockAccumulator.CloseParagraphScope | src/parser/mod.rs:131-139 | the new state is `CloseParagraph` of the old one |
| Markdown.BlockAccumulator.CloseCodeBlockScope | src/parser/mod.rs:140-150 | the new state is `CloseCodeBlock` of the old one |
| Markdown.BlockAccumulator.CloseListScope | src/parser/mod.rs:151-159 | the new state is `CloseList` of the old one |
| Markdown.BlockAccumulator.CloseItemScope | src/parser/mod.rs:160-166 | the new state is `CloseItem` of the old one |
| Markdown.BlockAccumulator.CloseQuoteScope | src/parser/mod.rs:167-175 | the new state is `CloseQuote` of the old one |
| Markdown.BlockAccumulator.OnEnd | src/parser/mod.rs:120-177 | the new state is `EndScope` of the old one |
| Markdown.BlockAccumulator.OnEvent | src/parser/mod.rs:81-198 | one loop iteration: the new state is `Step` of the old one |
| Markdown.ParseResponse | src/parser/mod.rs:64-202 | the imperative loop returns exactly the blocks of the specification `Parse(events)` |
| MarkdownProps.RunFromConcat | src/parser/mod.rs:80-199 | the fold over `a + b` is the fold over `b` from the state after `a` |
| MarkdownProps.TrailingEventsEmitNothing | src/parser/mod.rs:199-201 | events with no End after the last one add no block: scopes left open at the end are dropped |
| MarkdownProps.InitialInv | src/parser/mod.rs:65-78 | the initial locals satisfy the well-formedness invariant |
| MarkdownProps.StartInv | src/parser/mod.rs:82-119 | every Start event keeps the invariant (heading level 1..6, trimmed items, non-empty language) |
| MarkdownProps.EndInv | src/parser/mod.rs:120-177 | every End event keeps the invariant and emits only well-formed blocks |
| MarkdownProps.StepInv | src/parser/mod.rs:81-198 | every event keeps the invariant |
| MarkdownProps.RunFromInv | src/parser/mod.rs:80-199 | every event sequence keeps the invariant |
| MarkdownProps.ParseWellFormed | src/parser/mod.rs:121-175 | every block returned is well formed: title level 1..6, texts trimmed, lists non-empty with trimmed items, languages non-empty, code without trailing whitespace |
| MarkdownProps.TitleLevels | src/parser/mod.rs:83-85 | every title `get_titles` returns has a level from 1 to 6 |
| MarkdownProps.Heading | src/parser/mod.rs:121-130 | heading plus one text: a Title of the trimmed text unless the text is empty; then the buffer is empty and the heading closed |
| MarkdownProps.TopLevelParagraph | src/parser/mod.rs:131-139 | a paragraph outside any item emits a Paragraph of its trimmed text unless the text is empty |
| MarkdownProps.ParagraphInsideItem | src/parser/mod.rs:131-166 | a paragraph ending inside an item emits nothing and keeps its text; the item's end then takes it, trimmed, as a list item |
| MarkdownProps.FencedCode | src/parser/mod.rs:140-150 | a code block is always emitted, with its fence language and its code trimmed at the end; the language resets to `None` |
| MarkdownProps.ItemRun | src/parser/mod.rs:160-166 | one item's text, trimmed, joins the pending items unless it is empty |
| MarkdownProps.ItemsRun | src/parser/mod.rs:160-166 | after a run of items the collected texts follow the earlier items in the order their End events came |
| MarkdownProps.TightList | src/parser/mod.rs:151-166 | a list emits one List of its non-empty items in order, or nothing when every item is empty |
| MarkdownProps.WrappedParagraph | src/parser/mod.rs:190-196 | a soft or hard break between two texts of a paragraph becomes one space of the trimmed Paragraph |
| MarkdownProps.LeadingBreak | src/parser/mod.rs:190-196 | a break before any text of a paragraph adds nothing |
| MarkdownProps.BreakJoinsCode | src/parser/mod.rs:178-193 | in a code block, text, a break and text add up to one text with a newline between |
| MarkdownProps.BreakInCode | src/parser/mod.rs:190-193 | inside a fence a break is a newline of the code block's code |
| MarkdownProps.InlineCode | src/parser/mod.rs:185-189 | inline code joins the paragraph text between backquotes, so the paragraph is always emitted |
| MarkdownProps.QuotedParagraph | src/parser/mod.rs:131-175 | a quote around one paragraph yields a Paragraph and no Quote, since the paragraph's end takes the shared buffer |
| MarkdownProps.BlankHeadingKept | src/parser/mod.rs:121-128 | a heading whose text is one space yields `Title(1, "")`, since emptiness is tested before trimming |
| MarkdownProps.SimpleResponse | src/parser/mod.rs:209-217 | `# Title`, `Some text` and a rust fence parse to a Title, a Paragraph and a CodeBlock, in order |
| MarkdownProps.TwoCodeBlocks | src/parser/mod.rs:220-228 | two fences yield two code blocks, with the languages `rust` and `python` |
| MarkdownProps.ThreeTitles | src/parser/mod.rs:231-240 | three headings yield three titles with the levels 1, 2 and 3 |
| PluginApi.Message | src/plugins/mod.rs:47-57 | each error's display text ends with its detail |
| PluginApi.MessageInjective | src/plugins/mod.rs:47-57 | equal display texts come from equal errors: the text determines the kind and the detail |
| SamplePlugins.UppercasePreProcess | src/plugins/sample_plugins.rs:47-54 | fails exactly when not enabled, with `ProcessingError("Plugin not initialized")`; the result has the input's length |
| SamplePlugins.CodeFormatterPostProcess | src/plugins/sample_plugins.rs:98-107 | fails exactly when not enabled, with `ProcessingError("Plugin not initialized")` |
| SamplePlugins.UppercaseOutput | src/plugins/sample_plugins.rs:53 | once enabled, each lower-case ASCII letter becomes its capital, every other character is kept, and no lower-case ASCII letter is left |
| SamplePlugins.UppercaseIdempotent | src/plugins/sample_plugins.rs:53 | upper-casing twice is upper-casing once |
| SamplePlugins.FormatterMarksFences | src/plugins/sample_plugins.rs:106 | a response with a fence comes back with the formatter's marker inside it |
| SamplePlugins.FormatterMarksFirstFence | src/plugins/sample_plugins.rs:106 | the text before the first fence is kept, that fence becomes the marked fence, and the rest is formatted on its own |
| SamplePlugins.FormatterTwoFences | src/plugins/sample_plugins.rs:106 | text without backquotes around two fences comes back with exactly those two fences marked |
| SamplePlugins.FormatterKeepsPlainText | src/plugins/sample_plugins.rs:106 | a response without a fence comes back unchanged |
| SamplePlugins.UppercaseHelloWorld | src/plugins/sample_plugins.rs:115-121 | "hello world" becomes "HELLO WORLD" |
| SamplePlugins.FormatterOnFencedResponse | src/plugins/sample_plugins.rs:124-131 | the test's fenced response comes back with the marker after each of its two fences, and so contains it |
| Plugins.Plugin.constructor | src/plugins/sample_plugins.rs:13-23 | a new plugin is not enabled |
| Plugins.Plugin.Initialize | src/plugins/sample_plugins.rs:42-45 | the sample plugins always succeed and become enabled; other plugins return their own result |
| Plugins.DefaultHooksIdentity | src/plugins/mod.rs:37-44 | a default hook returns its input unchanged and never fails |
| Plugins.SampleHooksNeedInitialize | src/plugins/sample_plugins.rs:47-52 | before `initialize`, the sample plugins' own hooks refuse with `ProcessingError` |
| Plugins.SampleCapabilities | src/plugins/sample_plugins.rs:38-39 | the sample plugins' capability lists are non-empty; `PreProcessor` is claimed exactly by the upper-caser and `PostProcessor` and `CodeFormatter` exactly by the code formatter (also lines 89-90); `CustomCommand` by neither |
| Plugins.PreChainStep | src/plugins/mod.rs:90-92 | the chain from position `i` runs plugin `i` first and stops on its error |
| Plugins.PostChainStep | src/plugins/mod.rs:98-100 | the same for `post_process` |
| Plugins.PreChainConcat | src/plugins/mod.rs:88-94 | running two groups of plugins in turn is running them as one chain |
| Plugins.PostChainConcat | src/plugins/mod.rs:96-102 | the same for `post_process` |
| Plugins.PreChainStopsAtError | src/plugins/mod.rs:91 | the first error is the chain's result, whatever plugins follow |
| Plugins.PostChainStopsAtError | src/plugins/mod.rs:99 | the same for `post_process` |
| Plugins.PreChainOfDefaults | src/plugins/mod.rs:37-39 | plugins that all keep the default hook pass the input through |
| Plugins.PostChainOfDefaults | src/plugins/mod.rs:41-44 | the same for `post_process` |
| Plugins.PreChainUppercases | src/plugins/mod.rs:88-94 | a chain of enabled upper-casers and default hooks yields the upper-cased input if it holds an upper-caser, in any order |
| Plugins.PostChainOneFormatter | src/plugins/mod.rs:96-102 | one enabled code formatter among default hooks, wherever it stands, marks every fence once |
| Plugins.PluginRegistry.constructor | src/plugins/mod.rs:65-69 | a new registry is empty |
| Plugins.PluginRegistry.Enumeration | src/plugins/mod.rs:90 | the iteration yields one plugin per key, and every stored plugin occurs in it |
| Plugins.PluginRegistry.Register | src/plugins/mod.rs:71-76 | a failed `initialize` is returned and leaves the registry unchanged; otherwise the plugin is stored under its metadata name, replacing a namesake |
| Plugins.PluginRegistry.Get | src/plugins/mod.rs:78-80 | `Some` exactly when the name is stored, and the plugin found carries that name |
| Plugins.PluginRegistry.ListPlugins | src/plugins/mod.rs:82-86 | one metadata record per stored name; a name is stored exactly when some record carries it, and each record is the metadata of the plugin stored under its name |
| Plugins.PluginRegistry.PreProcessAll | src/plugins/mod.rs:88-94 | the loop with early return computes the chain `PreChain` over the iteration order |
| Plugins.PluginRegistry.PostProcessAll | src/plugins/mod.rs:96-102 | the loop with early return computes `PostChain` over the iteration order |
| Plugins.EmptyRegistryIdentity | src/plugins/mod.rs:88-102 | an empty registry passes input and response through unchanged |
| Plugins.TwoPluginEnumeration | src/plugins/mod.rs:61 | a registry of two names enumerates its plugins in one of the two orders |
| Plugins.ListedMetadataFilled | src/plugins/mod.rs:82-86 | when every stored plugin's metadata has no empty field, neither has any listed record |
| Plugins.TwoFilledListed | tests/plugins_e2e.rs:179-193 | two plugins with filled metadata under distinct names list exactly two records, each filled |
| Plugins.SampleMetadataListed | tests/plugins_e2e.rs:179-193 | with the upper-caser and the code formatter registered, two records are listed and none has an empty name, version, description or author |
| Plugins.CompleteWorkflow | tests/plugins_e2e.rs:157-177 | with an enabled upper-caser and code formatter registered, in either iteration order, pre-processing upper-cases and post-processing marks every fence |
| AIProviders.MockContent | src/ai_providers/mod.rs:96-108 | the answer starts with "# AI Response\n\nYou asked: " and contains the prompt |
| AIProviders.MockContentInjective | src/ai_providers/mod.rs:96-108 | different prompts get different answers |
| AIProviders.MockAIProvider.constructor | src/ai_providers/mod.rs:68-70 | a new mock is unconfigured |
| AIProviders.MockAIProvider.Configure | src/ai_providers/mod.rs:85-88 | always succeeds and keeps the configuration |
| AIProviders.MockAIProvider.SendRequest | src/ai_providers/mod.rs:90-119 | fails with `NotConfigured` exactly when unconfigured; otherwise the configured model, 150 tokens, and content starting with the header and the prompt |
| AIProviders.AIProviderManager.constructor | src/ai_providers/mod.rs:129-134 | no providers, no active index |
| AIProviders.AIProviderManager.AddProvider | src/ai_providers/mod.rs:136-141 | appends; the active index becomes 0 only if there was none; the index invariant is kept |
| AIProviders.AIProviderManager.SetActiveProvider | src/ai_providers/mod.rs:143-151 | an index out of range is refused with `ConfigurationError` and changes nothing; otherwise it becomes active |
| AIProviders.AIProviderManager.GetActiveProvider | src/ai_providers/mod.rs:153-157 | under the invariant, `Some` exactly when there are providers, and then the provider at the active index |
| AIProviders.AIProviderManager.ListProviders | src/ai_providers/mod.rs:159-161 | one name per provider, in order |
| SessionHistory.Capacity | tests/session_history_e2e.rs:34-39 | the bound the queue keeps is at least `max_size` and at least one |
| SessionHistory.RetainsMostRecent | tests/session_history_e2e.rs:96-118 | after any additions the entries are exactly the most recent `max(max_size, 1)`, in insertion order |
| SessionHistory.StaysBounded | tests/session_history_e2e.rs:34-39 | the length never exceeds the bound, and is the number added until the bound is reached |
| SessionHistory.FindById | tests/session_history_e2e.rs:53-55 | `None` exactly when no entry has the id; otherwise an entry with that id |
| SessionHistory.FindByIdFirst | tests/session_history_e2e.rs:53-55 | the entry found is the first with the id |
| SessionHistory.Search | tests/session_history_e2e.rs:57-65 | an entry is returned exactly when it is stored and its prompt or response contains the query |
| SessionHistory.SearchConcat | tests/session_history_e2e.rs:57-65 | the search works entry by entry and keeps the history's order |
| SessionHistory.History.constructor | tests/session_history_e2e.rs:27-32 | an empty history with the given bound |
| SessionHistory.History.AddEntry | tests/session_history_e2e.rs:34-39 | pops the front when `len >= max_size`, then appends; within the bound the new entries are the most recent ones |
| SessionHistory.History.Clear | tests/session_history_e2e.rs:45-47 | no entries, bound unchanged |
| SessionHistory.MaxSizeScenario | tests/session_history_e2e.rs:96-119 | five additions to a history of three keep "Prompt 2" to "Prompt 4" |
| Export.ExportToMarkdown | tests/export_e2e.rs:29-42 | the output is the header followed by one section per entry, numbered from 1 |
| Export.ExportToText | tests/export_e2e.rs:48-64 | the output is the title and rule followed by one section per entry |
| Export.ExportToHtml | tests/export_e2e.rs:66-92 | the output is the page head, one `interaction` division per entry, then the footer |
| Export.EmptyExport | tests/export_e2e.rs:29-92 | without entries each exporter yields its header and footer alone |
| Export.EmptyMarkdownExport | tests/export_e2e.rs:285-290 | the markdown export of no entries is exactly "# Vibe Coder Session Export\n\n" |
| Export.ExportExtends | tests/export_e2e.rs:32-39 | exporting more entries extends the Markdown or text document by their sections, numbered on |
| Export.PushMarkdownSection | tests/export_e2e.rs:32-37 | the six pushes of one entry append exactly its Markdown section |
| Export.PushTextSection | tests/export_e2e.rs:53-59 | the seven pushes of one entry append exactly its text section |
| Export.PushHtmlSection | tests/export_e2e.rs:78-85 | the six pushes of one entry append exactly its `interaction` division |
| Export.MarkdownSectionFrame | tests/export_e2e.rs:33-38 | a markdown section starts with "## Interaction n\n\n" and ends with "---\n\n" |
| Export.TextFrame | tests/export_e2e.rs:49-51 | the text export starts with its title, 80 '=' and a blank line |
| Export.TextSectionEnd | tests/export_e2e.rs:59-60 | each text section ends with 80 '-' and "\n\n" |
| Export.HtmlFrame | tests/export_e2e.rs:67-90 | the HTML export starts with the doctype and ends with "</body>\n</html>" |
| Export.ContainsSection | tests/export_e2e.rs:78-88 | every entry's section, numbered by its position, occurs in the document |
| Export.ContainsNumberedHeading | tests/export_e2e.rs:33-80 | every entry's numbered heading occurs in the document |
| Export.ContainsEntryText | tests/export_e2e.rs:36-86 | every prompt and response occurs verbatim in the document |
| WailsApp.GetName | wails-app/main.go:104-109 | the configured name, or "Ollama" / "Mock" when it is empty; never empty |
| WailsApp.MockReply | wails-app/main.go:111-113 | the fixed template, which starts with its header and contains the prompt |
| WailsApp.MockReplyInjective | wails-app/main.go:111-113 | different prompts get different answers |
| WailsApp.NewProvider | wails-app/main.go:135-144 | an Ollama provider exactly for type "Ollama", a Mock for every other type, keeping the configuration |
| WailsApp.Answer | wails-app/main.go:192-193 | a Mock answers from its template; an Ollama provider answers with the reply it is given |
| WailsApp.Names | wails-app/main.go:161-165 | one name per provider, in order |
| WailsApp.App.constructor | wails-app/main.go:121-126 | no providers and active index -1 |
| WailsApp.App.AddProvider | wails-app/main.go:131-154 | appends the provider, returns no error, and sets the active index to 0 only when it was -1 |
| WailsApp.App.ListProviders | wails-app/main.go:157-166 | the loop fills a fresh slice with the names, in order |
| WailsApp.App.SetActiveProvider | wails-app/main.go:169-179 | an index below 0 or past the end is refused and changes nothing; otherwise it becomes active |
| WailsApp.App.SendPrompt | wails-app/main.go:182-194 | without providers a fresh Mock answers; otherwise the active provider does |
| WailsApp.MockWorkflow | wails-app/main.go:121-194 | a new app given one Mock configuration lists one name and answers from the Mock template |
| Strings.TrimSpec | src/parser/mod.rs:125 | `trim` is no longer than its input, has no surrounding whitespace, and is empty exactly for an all-whitespace input |
| Strings.TrimEndSpec | src/parser/mod.rs:144 | `trim_end` is a prefix of its input, removes only whitespace, and is empty or ends in a non-whitespace character |
| Strings.TrimIsInfix | src/parser/mod.rs:125 | `trim` returns a contiguous slice of its input |
| Strings.MatchAtOccurs | src/plugins/sample_plugins.rs:106 | the matcher's character-by-character test agrees with occurrence of the pattern |
| Strings.ReplaceFromAbsent | src/plugins/sample_plugins.rs:106 | with no occurrence left, the scan copies the rest of the input |
| Strings.ReplaceFromFirst | src/plugins/sample_plugins.rs:106 | from any position, the text up to the next occurrence is copied, that occurrence becomes the replacement, and the scan resumes after it |
| Strings.ReplaceFromShift | src/plugins/sample_plugins.rs:106 | the scan depends only on the text still ahead of it |
| Strings.ReplaceFirst | src/plugins/sample_plugins.rs:106 | `replace` of `a + pat + b`, where `pat` first occurs after `a`, is `a`, the replacement, then `replace` of `b` |
| Strings.ReplacePresent | src/plugins/sample_plugins.rs:106 | replacing a present pattern leaves the replacement in the result |
| Strings.ReplaceAbsent | src/plugins/sample_plugins.rs:106 | replacing an absent pattern changes nothing |
| Strings.NatToStringRoundTrip | tests/export_e2e.rs:33 | the decimal rendering of a section number reads back as that number |
| Strings.ToUpperIdempotent | src/plugins/sample_plugins.rs:53 | upper-casing is idempotent |

## Left out

- The markdown tokenizer (`pulldown_cmark::Parser`) is a foreign library. Its output is the caller-supplied `seq<Event>`. The unit tests of `src/parser/mod.rs` are restated on hand-built event sequences.
- `async`/`await`, `async_trait`, the `Send + Sync` bounds, tokio, and the thread-safety and concurrency tests are left out. Every operation is synchronous.
- HashMap iteration order is unspecified. The registry keeps an enumeration `order` of its keys, and the contracts only say it lists every key once. Nothing claims that plugins run in registration order.
- `Plugins.Plugin`: Rust's `Box<dyn Plugin>` becomes one class. Its `kind` is one of the two sample plugins, or any other plugin given by its metadata, capabilities, initialisation result and hooks.
- `SamplePlugins.UppercaseOutput`: `to_uppercase` is modelled on ASCII letters only. Unicode case mapping, including mappings that change the length, is not modelled.
- The `f32` temperature of `AIRequest` and the Go `float64` / `maxTokens` parameters are not modelled.
- serde, JSON and TOML serialisation, `export_to_json`, and configuration defaults are not modelled. `save_to_file` and all file I/O are left out too.
- The iced UI (`src/ui/mod.rs`), `wails.Run` and the app bootstrap are left out.
- Ollama's `SendRequest` does HTTP I/O. Its outcome is the parameter `ollamaReply` of `WailsApp.Answer` and `WailsApp.App.SendPrompt`.
- The `sync.RWMutex` locking in `wails-app/main.go` is left out, since the model has no concurrency.
- `AIProviders.AIProviderManager`: the provider list holds `MockAIProvider` objects only. Other `AIProvider` implementations are not part of this model.
- `SessionHistory.SessionEntry`: the `u64` timestamp and `usize` token count are unbounded `nat`s. The wall clock that sets them is not modelled.
- `usize` lengths and indices, and `u8` heading levels, are unbounded integers. No wrap-around can occur at the sizes involved.
- `Export.ContainsSection`: the model does not count occurrences of `<div class="interaction">`. Prompts and responses are inserted unescaped and may contain that text themselves. Each section (which opens with it) is proved to occur instead.
- `Export.ExportToHtml`: the ten head pushes are one assignment of their concatenation `HtmlHeader`. The per-entry pushes are modelled one by one.
- `Markdown.ParsedResponse.GetCodeBlocks` and `GetTitles` read `CodeBlocks` / `Titles`, where their properties are stated.
- Definitions without a contract of their own are covered by the rows of the members that use them: `Markdown.Parse` (by `ParseResponse` and `ParseWellFormed`), `Markdown.CloseHeading`, `CloseParagraph`, `CloseCodeBlock`, `CloseList`, `CloseItem` and `CloseQuote` (by `EndScope`, `EndInv` and the `Close*Scope` methods), `Plugins.Plugin.Metadata`, `Capabilities`, `PreProcess` and `PostProcess` (by `Register`, `ListPlugins`, `SampleCapabilities`, `DefaultHooksIdentity`, `SampleHooksNeedInitialize` and the chain lemmas), `Plugins.PreChain` and `PostChain` (by `PreProcessAll`, `PostProcessAll` and the chain lemmas), `PluginApi.DefaultProcess` (by `DefaultHooksIdentity`), `AIProviders.MockAIProvider.IsReady` and `Name` (by `SendRequest` and `ListProviders`), `SessionHistory.Added` and `AddAll` (by `AddEntry`, `RetainsMostRecent` and `StaysBounded`), `SessionHistory.History.Len`, `GetEntries`, `GetById` and `SearchEntries` (by `StaysBounded`, `FindById` and `Search`), and `Export.Document` and `Section` (by the exporters and the `Push*Section` methods).
- `Strings.Replace` with an empty pattern is defined as Rust's `str::replace` behaves, but nothing is proved about that case, since the plugins only replace the fence.
