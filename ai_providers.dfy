/**
 * The AI provider framework of `src/ai_providers/mod.rs`: the mock provider,
 * a configured/unconfigured state machine that answers with a fixed markdown
 * template, and the manager that keeps a provider list and an active index.
 */
module AIProviders {
  import opened Common
  import opened Strings

  /** A request; the `f32` temperature is not modelled. */
  datatype AIRequest = AIRequest(prompt: string, context: Option<string>, maxTokens: Option<nat>)

  datatype AIResponse = AIResponse(content: string, model: string, tokensUsed: Option<nat>)

  datatype ProviderConfig = ProviderConfig(name: string, apiKey: Option<string>, apiEndpoint: Option<string>, model: string)

  datatype AIProviderError =
    | NotConfigured
    | ApiError(detail: string)
    | NetworkError(detail: string)
    | InvalidResponse(detail: string)
    | ConfigurationError(detail: string)

  const MockName := "Mock Provider"

  /** The mock answer up to the prompt. */
  const MockHeader := "# AI Response\n\nYou asked: "

  /** The mock answer after the prompt: a rust code example and an explanation. */
  const MockBody := "\n\n## Code Example\n\n```rust\nfn hello_world() {\n    println!(\"Hello from Vibe Coder!\");\n}\n```\n\n## Explanation\n\nThis is a mock response demonstrating the parsing capabilities."

  /** The token count the mock reports. */
  const MockTokens := 150

  /** The text of the mock answer to `prompt`. */
  function MockContent(prompt: string): (r: string)
    ensures MockHeader <= r && Contains(r, prompt)
  {
    ContainsInfix(MockHeader, prompt, MockBody);
    MockHeader + prompt + MockBody
  }

  /** The mock answer gives back the prompt: different prompts get different answers. */
  lemma MockContentInjective(p: string, q: string)
    requires MockContent(p) == MockContent(q)
    ensures p == q
  {
    var a, b := MockContent(p), MockContent(q);
    assert |p| == |q|;
    assert p == a[|MockHeader|..|MockHeader| + |p|];
    assert q == b[|MockHeader|..|MockHeader| + |q|];
  }

  class MockAIProvider {
    var config: Option<ProviderConfig>

    constructor ()
      ensures config == None
    {
      config := None;
    }

    function Name(): string {
      MockName
    }

    /** `configure`: always succeeds and keeps the configuration. */
    method Configure(c: ProviderConfig) returns (r: Result<(), AIProviderError>)
      modifies this
      ensures config == Some(c) && r == Ok(())
    {
      config := Some(c);
      r := Ok(());
    }

    function IsReady(): bool
      reads this
    {
      config.Some?
    }

    /**
     * `send_request`: `NotConfigured` before `configure`; afterwards the
     * template around the prompt, the configured model and 150 tokens.
     */
    function SendRequest(request: AIRequest): (r: Result<AIResponse, AIProviderError>)
      reads this
      ensures r.Err? <==> !IsReady()
      ensures r.Err? ==> r.error == NotConfigured
      ensures r.Ok? ==> r.value.model == config.value.model && r.value.tokensUsed == Some(MockTokens)
      ensures r.Ok? ==> MockHeader + request.prompt <= r.value.content
    {
      if !IsReady() then Err(NotConfigured)
      else Ok(AIResponse(MockContent(request.prompt), config.value.model, Some(MockTokens)))
    }
  }

  class AIProviderManager {
    var providers: seq<MockAIProvider>
    var activeIndex: Option<nat>

    /** An active index exists exactly when there are providers, and it is in range. */
    ghost predicate Valid()
      reads this
    {
      && (activeIndex.None? <==> providers == [])
      && (activeIndex.Some? ==> activeIndex.value < |providers|)
    }

    constructor ()
      ensures Valid() && providers == [] && activeIndex == None
    {
      providers := [];
      activeIndex := None;
    }

    /** `add_provider`: appends; the first provider added becomes the active one. */
    method AddProvider(p: MockAIProvider)
      requires Valid()
      modifies this
      ensures Valid()
      ensures providers == old(providers) + [p]
      ensures activeIndex == if old(activeIndex).None? then Some(0) else old(activeIndex)
    {
      providers := providers + [p];
      if activeIndex.None? && providers != [] {
        activeIndex := Some(0);
      }
    }

    /** `set_active_provider`: an index out of range is refused and changes nothing. */
    method SetActiveProvider(index: nat) returns (r: Result<(), AIProviderError>)
      requires Valid()
      modifies this
      ensures Valid() && providers == old(providers)
      ensures index >= |providers| ==>
                r == Err(ConfigurationError("Provider index out of bounds")) && activeIndex == old(activeIndex)
      ensures index < |providers| ==> r == Ok(()) && activeIndex == Some(index)
    {
      if index >= |providers| {
        return Err(ConfigurationError("Provider index out of bounds"));
      }
      activeIndex := Some(index);
      r := Ok(());
    }

    /** `get_active_provider`: the provider at the active index, if any. */
    function GetActiveProvider(): (r: Option<MockAIProvider>)
      reads this
      ensures Valid() ==> (r.Some? <==> providers != [])
      ensures r.Some? ==> r.value in providers
      ensures Valid() && r.Some? ==> activeIndex.Some? && r.value == providers[activeIndex.value]
    {
      if activeIndex.Some? && activeIndex.value < |providers| then Some(providers[activeIndex.value]) else None
    }

    /** `list_providers`: one name per provider, in insertion order. */
    function ListProviders(): (r: seq<string>)
      reads this
      ensures |r| == |providers|
      ensures forall i :: 0 <= i < |r| ==> r[i] == MockName
    {
      var ps := providers;
      seq(|ps|, i requires 0 <= i < |ps| => ps[i].Name())
    }
  }
}
