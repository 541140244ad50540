/**
 * The provider handling of the desktop app in `wails-app/main.go`: providers
 * built from a configuration, the `App` that keeps them in a slice with an
 * active index (-1 when there is none), and prompt dispatch to the active one.
 */
module WailsApp {
  import opened Common
  import opened Strings

  /** The configuration the frontend sends; `Type` selects the provider. */
  datatype ProviderConfig = ProviderConfig(providerType: string, name: string, apiKey: string, endpoint: string, model: string)

  /** The two provider implementations; neither changes after it is built. */
  datatype Provider = Ollama(config: ProviderConfig) | Mock(config: ProviderConfig)

  /** `GetName` of either provider: the configured name, or the implementation's name when it is empty. */
  function GetName(p: Provider): (r: string)
    ensures r != ""
    ensures p.config.name != "" ==> r == p.config.name
    ensures p.config.name == "" ==> r == (if p.Ollama? then "Ollama" else "Mock")
  {
    if p.config.name != "" then p.config.name
    else if p.Ollama? then "Ollama" else "Mock"
  }

  /** The Mock answer up to the prompt. */
  const MockHeader := "# Mock AI Response\n\nYou asked: "

  /** The Mock answer after the prompt: a go code example and an explanation. */
  const MockBody := "\n\n## Code Example\n\n```go\nfunc hello() {\n    fmt.Println(\"Hello from Vibe Coder!\")\n}\n```\n\n## Explanation\n\nThis is a mock response demonstrating the parsing capabilities."

  /** `MockProvider.SendRequest`: the fixed template around the prompt; it never fails. */
  function MockReply(prompt: string): (r: string)
    ensures MockHeader <= r && Contains(r, prompt)
  {
    ContainsInfix(MockHeader, prompt, MockBody);
    MockHeader + prompt + MockBody
  }

  /** The Mock answer gives back its prompt. */
  lemma MockReplyInjective(p: string, q: string)
    requires MockReply(p) == MockReply(q)
    ensures p == q
  {
    var a, b := MockReply(p), MockReply(q);
    assert |p| == |q|;
    assert p == a[|MockHeader|..|MockHeader| + |p|];
    assert q == b[|MockHeader|..|MockHeader| + |q|];
  }

  /** The provider `AddProvider` builds: Ollama for type "Ollama", Mock for every other type. */
  function NewProvider(config: ProviderConfig): (p: Provider)
    ensures p.config == config
    ensures p.Ollama? <==> config.providerType == "Ollama"
  {
    if config.providerType == "Ollama" then Ollama(config) else Mock(config)
  }

  /**
   * What one provider answers. Ollama's answer comes over HTTP and is passed
   * in as `ollamaReply`; the Mock answers from its template.
   */
  function Answer(p: Provider, prompt: string, ollamaReply: Result<string, string>): (r: Result<string, string>)
    ensures p.Mock? ==> r == Ok(MockReply(prompt))
    ensures p.Ollama? ==> r == ollamaReply
  {
    match p
    case Ollama(_) => ollamaReply
    case Mock(_) => Ok(MockReply(prompt))
  }

  /** The names of a provider list, in order. */
  function Names(ps: seq<Provider>): (r: seq<string>)
    ensures |r| == |ps|
    ensures forall i :: 0 <= i < |ps| ==> r[i] == GetName(ps[i])
  {
    seq(|ps|, i requires 0 <= i < |ps| => GetName(ps[i]))
  }

  class App {
    var providers: seq<Provider>
    var activeProvider: int

    /** -1 means no provider; otherwise the active index is in range. */
    ghost predicate Valid()
      reads this
    {
      && (activeProvider == -1 <==> providers == [])
      && (activeProvider != -1 ==> 0 <= activeProvider < |providers|)
    }

    /** `NewApp`. */
    constructor ()
      ensures Valid() && providers == [] && activeProvider == -1
    {
      providers := [];
      activeProvider := -1;
    }

    /** `AddProvider`: appends the provider for `config`; the first one becomes active. */
    method AddProvider(config: ProviderConfig) returns (err: Option<string>)
      requires Valid()
      modifies this
      ensures Valid()
      ensures err == None
      ensures providers == old(providers) + [NewProvider(config)]
      ensures activeProvider == if old(activeProvider) == -1 then 0 else old(activeProvider)
    {
      var provider := NewProvider(config);
      providers := providers + [provider];
      if activeProvider == -1 {
        activeProvider := 0;
      }
      err := None;
    }

    /** `ListProviders`: fills a fresh slice with the names, one per provider. */
    method ListProviders() returns (names: array<string>)
      ensures fresh(names)
      ensures names[..] == Names(providers)
    {
      names := new string[|providers|](_ => "");
      for i := 0 to |providers|
        invariant forall k :: 0 <= k < i ==> names[k] == GetName(providers[k])
      {
        names[i] := GetName(providers[i]);
      }
    }

    /** `SetActiveProvider`: an index outside the slice is refused and changes nothing. */
    method SetActiveProvider(index: int) returns (err: Option<string>)
      requires Valid()
      modifies this
      ensures Valid() && providers == old(providers)
      ensures (index < 0 || index >= |providers|) ==>
                err == Some("invalid provider index") && activeProvider == old(activeProvider)
      ensures 0 <= index < |providers| ==> err == None && activeProvider == index
    {
      if index < 0 || index >= |providers| {
        return Some("invalid provider index");
      }
      activeProvider := index;
      err := None;
    }

    /**
     * `SendPrompt`: without a provider a fresh Mock answers; otherwise the
     * active provider does.
     */
    method SendPrompt(prompt: string, ollamaReply: Result<string, string>) returns (r: Result<string, string>)
      requires Valid()
      ensures providers == [] ==> r == Ok(MockReply(prompt))
      ensures providers != [] ==> r == Answer(providers[activeProvider], prompt, ollamaReply)
    {
      if activeProvider == -1 || |providers| == 0 {
        var mock := Mock(ProviderConfig("", "Mock", "", "", ""));
        return Answer(mock, prompt, ollamaReply);
      }
      var provider := providers[activeProvider];
      r := Answer(provider, prompt, ollamaReply);
    }
  }

  /** A new app with one Mock configuration answers every prompt from the Mock template. */
  method MockWorkflow(config: ProviderConfig, prompt: string, ollamaReply: Result<string, string>)
    returns (names: seq<string>, r: Result<string, string>)
    requires config.providerType != "Ollama"
    ensures |names| == 1 && names[0] == GetName(Mock(config))
    ensures r == Ok(MockReply(prompt))
  {
    var app := new App();
    var _ := app.AddProvider(config);
    var listed := app.ListProviders();
    names := listed[..];
    r := app.SendPrompt(prompt, ollamaReply);
  }
}
