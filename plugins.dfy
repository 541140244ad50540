/**
 * Plugins and the `PluginRegistry` of `src/plugins/mod.rs`.
 *
 * A plugin object is a `Plugin`: its `kind` fixes which implementation of the
 * `Plugin` trait it is (one of the two sample plugins, or a plugin written
 * elsewhere whose hooks are given as functions), and `enabled` is the flag the
 * sample plugins keep. The registry maps names to plugin objects; the
 * HashMap's iteration order is an enumeration `order` of its keys, and the
 * processing chains run the plugins in that enumeration.
 */
module Plugins {
  import opened Common
  import opened Strings
  import opened PluginApi
  import opened SamplePlugins

  /** A hook of a plugin defined elsewhere: the trait's default, or its own transform. */
  datatype Hook =
    | Inherited
    | Overridden(transform: string -> Result<string, PluginError>)

  function RunHook(h: Hook, input: string): Result<string, PluginError> {
    match h
    case Inherited => DefaultProcess(input)
    case Overridden(f) => f(input)
  }

  /** Which implementation of the `Plugin` trait a plugin object is. */
  datatype PluginKind =
    | Uppercase
    | CodeFormatterPlugin
    | UserDefined(metadata: PluginMetadata, capabilities: seq<PluginCapability>,
                  initialization: Result<(), PluginError>, pre: Hook, post: Hook)

  class Plugin {
    const kind: PluginKind
    var enabled: bool

    /** `UppercasePlugin::new`, `CodeFormatterPlugin::new`, or any other plugin value. */
    constructor (kind: PluginKind)
      ensures this.kind == kind && !enabled
    {
      this.kind := kind;
      enabled := false;
    }

    function Metadata(): PluginMetadata {
      match kind
      case Uppercase => UppercaseMetadata
      case CodeFormatterPlugin => CodeFormatterMetadata
      case UserDefined(m, _, _, _, _) => m
    }

    function Capabilities(): seq<PluginCapability> {
      match kind
      case Uppercase => UppercaseCapabilities
      case CodeFormatterPlugin => CodeFormatterCapabilities
      case UserDefined(_, c, _, _, _) => c
    }

    /** `initialize`: the sample plugins always succeed and become enabled. */
    method Initialize() returns (r: Result<(), PluginError>)
      modifies this
      ensures kind.UserDefined? ==> r == kind.initialization && enabled == old(enabled)
      ensures !kind.UserDefined? ==> r == Ok(()) && enabled
    {
      match kind {
        case UserDefined(_, _, init, _, _) =>
          r := init;
        case _ =>
          enabled := true;
          r := Ok(());
      }
    }

    /** `pre_process`: the upper-caser's own, the default elsewhere unless overridden. */
    function PreProcess(input: string): Result<string, PluginError>
      reads this
    {
      match kind
      case Uppercase => UppercasePreProcess(enabled, input)
      case CodeFormatterPlugin => DefaultProcess(input)
      case UserDefined(_, _, _, pre, _) => RunHook(pre, input)
    }

    /** `post_process`: the code formatter's own, the default elsewhere unless overridden. */
    function PostProcess(response: string): Result<string, PluginError>
      reads this
    {
      match kind
      case Uppercase => DefaultProcess(response)
      case CodeFormatterPlugin => CodeFormatterPostProcess(enabled, response)
      case UserDefined(_, _, _, _, post) => RunHook(post, response)
    }
  }

  /** The plugin keeps the trait's default `pre_process`. */
  predicate DefaultPre(p: Plugin) {
    p.kind.CodeFormatterPlugin? || (p.kind.UserDefined? && p.kind.pre.Inherited?)
  }

  /** The plugin keeps the trait's default `post_process`. */
  predicate DefaultPost(p: Plugin) {
    p.kind.Uppercase? || (p.kind.UserDefined? && p.kind.post.Inherited?)
  }

  /** A default hook is the identity and never fails. */
  lemma DefaultHooksIdentity(p: Plugin, input: string)
    ensures DefaultPre(p) ==> p.PreProcess(input) == Ok(input)
    ensures DefaultPost(p) ==> p.PostProcess(input) == Ok(input)
  {
  }

  /** Before `initialize`, the sample plugins' own hooks refuse with `ProcessingError`. */
  lemma SampleHooksNeedInitialize(p: Plugin, input: string)
    requires !p.enabled
    ensures p.kind.Uppercase? ==> p.PreProcess(input) == Err(NotInitialized)
    ensures p.kind.CodeFormatterPlugin? ==> p.PostProcess(input) == Err(NotInitialized)
  {
  }

  /**
   * `capabilities` of the sample plugins: never empty; a sample plugin claims
   * `PreProcessor` exactly when it is the upper-caser and `PostProcessor`
   * exactly when it is the code formatter, the one hook each overrides; only
   * the formatter claims `CodeFormatter`, and neither claims `CustomCommand`.
   */
  lemma SampleCapabilities(p: Plugin)
    requires !p.kind.UserDefined?
    ensures p.Capabilities() != []
    ensures PreProcessor in p.Capabilities() <==> p.kind.Uppercase?
    ensures PostProcessor in p.Capabilities() <==> p.kind.CodeFormatterPlugin?
    ensures CodeFormatter in p.Capabilities() <==> p.kind.CodeFormatterPlugin?
    ensures CustomCommand !in p.Capabilities()
  {
  }

  // ---------------------------------------------------------------------------
  // Chains: `pre_process_all` and `post_process_all` as functions
  // ---------------------------------------------------------------------------

  /** Each plugin's `pre_process` on the previous one's output; the first error ends the chain. */
  function PreChain(ps: seq<Plugin>, input: string): Result<string, PluginError>
    reads ps
  {
    if ps == [] then Ok(input)
    else match ps[0].PreProcess(input)
      case Err(e) => Err(e)
      case Ok(next) => PreChain(ps[1..], next)
  }

  /** The same with `post_process`. */
  function PostChain(ps: seq<Plugin>, response: string): Result<string, PluginError>
    reads ps
  {
    if ps == [] then Ok(response)
    else match ps[0].PostProcess(response)
      case Err(e) => Err(e)
      case Ok(next) => PostChain(ps[1..], next)
  }

  /** The chain from position `i` runs plugin `i` first. */
  lemma PreChainStep(ps: seq<Plugin>, i: nat, input: string)
    requires i < |ps|
    ensures PreChain(ps[i..], input) == match ps[i].PreProcess(input)
                                        case Err(e) => Err(e)
                                        case Ok(next) => PreChain(ps[i + 1..], next)
  {
    assert ps[i..][0] == ps[i] && ps[i..][1..] == ps[i + 1..];
  }

  lemma PostChainStep(ps: seq<Plugin>, i: nat, response: string)
    requires i < |ps|
    ensures PostChain(ps[i..], response) == match ps[i].PostProcess(response)
                                           case Err(e) => Err(e)
                                           case Ok(next) => PostChain(ps[i + 1..], next)
  {
    assert ps[i..][0] == ps[i] && ps[i..][1..] == ps[i + 1..];
  }

  /** Running two groups of plugins in turn is running them as one chain. */
  lemma {:induction false} PreChainConcat(a: seq<Plugin>, b: seq<Plugin>, input: string)
    ensures PreChain(a + b, input)
         == match PreChain(a, input) case Err(e) => Err(e) case Ok(v) => PreChain(b, v)
  {
    if a == [] {
      assert a + b == b;
    } else {
      assert (a + b)[0] == a[0] && (a + b)[1..] == a[1..] + b;
      match a[0].PreProcess(input) {
        case Err(e) =>
        case Ok(next) => PreChainConcat(a[1..], b, next);
      }
    }
  }

  lemma {:induction false} PostChainConcat(a: seq<Plugin>, b: seq<Plugin>, response: string)
    ensures PostChain(a + b, response)
         == match PostChain(a, response) case Err(e) => Err(e) case Ok(v) => PostChain(b, v)
  {
    if a == [] {
      assert a + b == b;
    } else {
      assert (a + b)[0] == a[0] && (a + b)[1..] == a[1..] + b;
      match a[0].PostProcess(response) {
        case Err(e) =>
        case Ok(next) => PostChainConcat(a[1..], b, next);
      }
    }
  }

  /**
   * The first error is the chain's result, whatever plugins follow: a plugin
   * after the failing one has no influence.
   */
  lemma PreChainStopsAtError(before: seq<Plugin>, p: Plugin, after: seq<Plugin>, input: string, v: string, e: PluginError)
    requires PreChain(before, input) == Ok(v) && p.PreProcess(v) == Err(e)
    ensures PreChain(before + [p] + after, input) == Err(e)
  {
    PreChainConcat(before, [p] + after, input);
    assert before + [p] + after == before + ([p] + after);
  }

  lemma PostChainStopsAtError(before: seq<Plugin>, p: Plugin, after: seq<Plugin>, response: string, v: string, e: PluginError)
    requires PostChain(before, response) == Ok(v) && p.PostProcess(v) == Err(e)
    ensures PostChain(before + [p] + after, response) == Err(e)
  {
    PostChainConcat(before, [p] + after, response);
    assert before + [p] + after == before + ([p] + after);
  }

  /** Plugins that all keep the default hook pass the input through unchanged. */
  lemma {:induction false} PreChainOfDefaults(ps: seq<Plugin>, input: string)
    requires forall i :: 0 <= i < |ps| ==> DefaultPre(ps[i])
    ensures PreChain(ps, input) == Ok(input)
  {
    if ps != [] {
      DefaultHooksIdentity(ps[0], input);
      PreChainOfDefaults(ps[1..], input);
    }
  }

  lemma {:induction false} PostChainOfDefaults(ps: seq<Plugin>, response: string)
    requires forall i :: 0 <= i < |ps| ==> DefaultPost(ps[i])
    ensures PostChain(ps, response) == Ok(response)
  {
    if ps != [] {
      DefaultHooksIdentity(ps[0], response);
      PostChainOfDefaults(ps[1..], response);
    }
  }

  /** An initialized upper-caser. */
  predicate EnabledUppercase(p: Plugin)
    reads p
  {
    p.kind.Uppercase? && p.enabled
  }

  /**
   * A chain of initialized upper-casers and default pre-processors yields the
   * upper-cased input as soon as it holds one upper-caser, in any order.
   */
  lemma {:induction false} PreChainUppercases(ps: seq<Plugin>, input: string)
    requires forall i :: 0 <= i < |ps| ==> EnabledUppercase(ps[i]) || DefaultPre(ps[i])
    ensures PreChain(ps, input)
         == Ok(if exists i :: 0 <= i < |ps| && EnabledUppercase(ps[i]) then ToUpper(input) else input)
  {
    if ps == [] {
    } else {
      var tail := ps[1..];
      assert forall i :: 0 <= i < |tail| ==> tail[i] == ps[i + 1];
      PreChainUppercases(tail, if EnabledUppercase(ps[0]) then ToUpper(input) else input);
      if EnabledUppercase(ps[0]) {
        ToUpperIdempotent(input);
      } else {
        DefaultHooksIdentity(ps[0], input);
        if exists i :: 0 <= i < |ps| && EnabledUppercase(ps[i]) {
          var i :| 0 <= i < |ps| && EnabledUppercase(ps[i]);
          assert EnabledUppercase(tail[i - 1]);
        }
      }
    }
  }

  /**
   * One initialized code formatter among default post-processors, wherever it
   * stands, marks every fence once.
   */
  lemma PostChainOneFormatter(before: seq<Plugin>, f: Plugin, after: seq<Plugin>, response: string)
    requires f.kind.CodeFormatterPlugin? && f.enabled
    requires forall i :: 0 <= i < |before| ==> DefaultPost(before[i])
    requires forall i :: 0 <= i < |after| ==> DefaultPost(after[i])
    ensures PostChain(before + [f] + after, response) == Ok(Replace(response, Fence, MarkedFence))
  {
    PostChainOfDefaults(before, response);
    PostChainConcat(before, [f] + after, response);
    assert before + [f] + after == before + ([f] + after);
    assert ([f] + after)[0] == f && ([f] + after)[1..] == after;
    PostChainOfDefaults(after, Replace(response, Fence, MarkedFence));
  }

  // ---------------------------------------------------------------------------
  // The registry
  // ---------------------------------------------------------------------------

  /** No name occurs twice. */
  predicate Distinct(names: seq<string>) {
    forall i, j :: 0 <= i < j < |names| ==> names[i] != names[j]
  }

  /** A sequence without repetitions has as many elements as its set. */
  lemma {:induction false} DistinctCardinality(names: seq<string>)
    requires Distinct(names)
    ensures |set n | n in names| == |names|
  {
    if names != [] {
      var last := names[|names| - 1];
      var init := names[..|names| - 1];
      DistinctCardinality(init);
      assert (set n | n in names) == (set n | n in init) + {last};
      assert last !in init;
    }
  }

  /** The position of a name in a sequence that holds it. */
  function IndexOf(names: seq<string>, n: string): (i: nat)
    requires n in names
    ensures i < |names| && names[i] == n
  {
    if names[0] == n then 0 else 1 + IndexOf(names[1..], n)
  }

  class PluginRegistry {
    var plugins: map<string, Plugin>
    /** The HashMap's iteration order: every key once. */
    var order: seq<string>

    /** `order` enumerates the keys, and each plugin is stored under its metadata name. */
    ghost predicate Valid()
      reads this
    {
      && Distinct(order)
      && (forall n :: n in order <==> n in plugins)
      && (forall n :: n in plugins ==> plugins[n].Metadata().name == n)
    }

    constructor ()
      ensures Valid() && plugins == map[] && order == []
    {
      plugins := map[];
      order := [];
    }

    /** The stored plugins in iteration order. */
    function Enumeration(): (ps: seq<Plugin>)
      reads this
      requires Valid()
      ensures |ps| == |order| == |plugins|
      ensures forall i :: 0 <= i < |ps| ==> ps[i] == plugins[order[i]]
      ensures forall n :: n in plugins ==> plugins[n] in ps
    {
      DistinctCardinality(order);
      assert (set n | n in order) == plugins.Keys;
      var ps := seq(|order|, i requires 0 <= i < |order| && order[i] in plugins reads this => plugins[order[i]]);
      assert forall n :: n in plugins ==> ps[IndexOf(order, n)] == plugins[n];
      ps
    }

    /** `register`: initialise, then store under the metadata name, replacing a namesake. */
    method Register(p: Plugin) returns (r: Result<(), PluginError>)
      requires Valid()
      modifies this, p
      ensures Valid()
      ensures p.kind.UserDefined? ==> r == p.kind.initialization
      ensures !p.kind.UserDefined? ==> r.Ok? && p.enabled
      ensures r.Err? ==> plugins == old(plugins) && order == old(order)
      ensures r.Ok? ==> plugins == old(plugins)[p.Metadata().name := p]
    {
      var init := p.Initialize();
      if init.Err? {
        return Err(init.error);
      }
      var name := p.Metadata().name;
      if name !in plugins {
        order := order + [name];
      }
      plugins := plugins[name := p];
      assert init.value == ();
      r := Ok(());
    }

    /** `get`: the plugin stored under `name`, if any. */
    function Get(name: string): (r: Option<Plugin>)
      reads this
      requires Valid()
      ensures r.Some? <==> name in plugins
      ensures r.Some? ==> r.value.Metadata().name == name && r.value in Enumeration()
    {
      if name in plugins then Some(plugins[name]) else None
    }

    /** `list_plugins`: one metadata record per stored name. */
    function ListPlugins(): (r: seq<PluginMetadata>)
      reads this
      requires Valid()
      ensures |r| == |plugins|
      ensures forall n :: n in plugins <==> exists i :: 0 <= i < |r| && r[i].name == n
      ensures forall i :: 0 <= i < |r| ==> r[i].name in plugins && r[i] == plugins[r[i].name].Metadata()
    {
      var ps := Enumeration();
      var r := seq(|ps|, i requires 0 <= i < |ps| => ps[i].Metadata());
      assert forall i :: 0 <= i < |r| ==> r[i].name == order[i];
      r
    }

    /** `pre_process_all`: the input threaded through every plugin; the first error is returned. */
    method PreProcessAll(input: string) returns (r: Result<string, PluginError>)
      requires Valid()
      ensures r == PreChain(Enumeration(), input)
    {
      var ps := Enumeration();
      var result := input;
      for i := 0 to |ps|
        invariant PreChain(ps[i..], result) == PreChain(ps, input)
      {
        PreChainStep(ps, i, result);
        var next := ps[i].PreProcess(result);
        if next.Err? {
          return Err(next.error);
        }
        result := next.value;
      }
      r := Ok(result);
    }

    /** `post_process_all`: the same with `post_process`. */
    method PostProcessAll(response: string) returns (r: Result<string, PluginError>)
      requires Valid()
      ensures r == PostChain(Enumeration(), response)
    {
      var ps := Enumeration();
      var result := response;
      for i := 0 to |ps|
        invariant PostChain(ps[i..], result) == PostChain(ps, response)
      {
        PostChainStep(ps, i, result);
        var next := ps[i].PostProcess(result);
        if next.Err? {
          return Err(next.error);
        }
        result := next.value;
      }
      r := Ok(result);
    }
  }

  /** An empty registry passes input and response through unchanged. */
  lemma EmptyRegistryIdentity(reg: PluginRegistry, input: string)
    requires reg.Valid() && reg.plugins == map[]
    ensures PreChain(reg.Enumeration(), input) == Ok(input)
    ensures PostChain(reg.Enumeration(), input) == Ok(input)
  {
  }

  /** Two distinct names listed without repetition are listed in one of the two orders. */
  lemma TwoNamesListed(order: seq<string>, plugins: map<string, Plugin>, ps: seq<Plugin>,
                       a: string, p: Plugin, b: string, q: Plugin)
    requires Distinct(order) && a != b
    requires plugins == map[a := p, b := q]
    requires forall n :: n in order <==> n in plugins
    requires |ps| == |order| && forall i :: 0 <= i < |ps| ==> ps[i] == plugins[order[i]]
    ensures ps == [p, q] || ps == [q, p]
  {
    DistinctCardinality(order);
    assert (set n | n in order) == {a, b};
    assert order[0] != order[1];
    assert order[0] in plugins && order[1] in plugins;
  }

  /** A registry of two plugins under two names enumerates them in one of the two orders. */
  lemma TwoPluginEnumeration(reg: PluginRegistry, a: string, p: Plugin, b: string, q: Plugin)
    requires reg.Valid() && a != b
    requires reg.plugins == map[a := p, b := q]
    ensures reg.Enumeration() == [p, q] || reg.Enumeration() == [q, p]
  {
    TwoNamesListed(reg.order, reg.plugins, reg.Enumeration(), a, p, b, q);
  }

  /** An enabled upper-caser and code formatter, run in either order. */
  lemma TwoPluginChains(ps: seq<Plugin>, u: Plugin, f: Plugin, input: string, response: string)
    requires ps == [u, f] || ps == [f, u]
    requires EnabledUppercase(u) && f.kind.CodeFormatterPlugin? && f.enabled
    ensures PreChain(ps, input) == Ok(ToUpper(input))
    ensures PostChain(ps, response) == Ok(Replace(response, Fence, MarkedFence))
  {
    PreChainUppercases(ps, input);
    if ps == [u, f] {
      PostChainOneFormatter([u], f, [], response);
      assert [u] + [f] + [] == ps;
    } else {
      PostChainOneFormatter([], f, [u], response);
      assert [] + [f] + [u] == ps;
    }
  }

  /**
   * `test_complete_plugin_workflow`: with an initialized upper-caser and code
   * formatter registered, in whichever order the map yields them,
   * pre-processing upper-cases and post-processing marks every fence.
   */
  lemma CompleteWorkflow(reg: PluginRegistry, u: Plugin, f: Plugin, input: string, response: string)
    requires reg.Valid()
    requires EnabledUppercase(u) && f.kind.CodeFormatterPlugin? && f.enabled
    requires reg.plugins == map[UppercaseMetadata.name := u, CodeFormatterMetadata.name := f]
    ensures PreChain(reg.Enumeration(), input) == Ok(ToUpper(input))
    ensures PostChain(reg.Enumeration(), response) == Ok(Replace(response, Fence, MarkedFence))
  {
    TwoPluginEnumeration(reg, UppercaseMetadata.name, u, CodeFormatterMetadata.name, f);
    TwoPluginChains(reg.Enumeration(), u, f, input, response);
  }

  /** No field of the metadata is empty. */
  predicate Filled(m: PluginMetadata) {
    m.name != "" && m.version != "" && m.description != "" && m.author != ""
  }

  /** When every stored plugin's metadata is filled, so is every listed record. */
  lemma ListedMetadataFilled(reg: PluginRegistry)
    requires reg.Valid()
    requires forall n :: n in reg.plugins ==> Filled(reg.plugins[n].Metadata())
    ensures forall i :: 0 <= i < |reg.ListPlugins()| ==> Filled(reg.ListPlugins()[i])
  {
    var r := reg.ListPlugins();
    forall i | 0 <= i < |r|
      ensures Filled(r[i])
    {
      assert r[i] == reg.plugins[r[i].name].Metadata();
    }
  }

  /** Two plugins with filled metadata under distinct names list two filled records. */
  lemma TwoFilledListed(reg: PluginRegistry, a: string, p: Plugin, b: string, q: Plugin)
    requires reg.Valid() && a != b
    requires reg.plugins == map[a := p, b := q]
    requires Filled(p.Metadata()) && Filled(q.Metadata())
    ensures |reg.ListPlugins()| == 2
    ensures forall i :: 0 <= i < |reg.ListPlugins()| ==> Filled(reg.ListPlugins()[i])
  {
    TwoPluginEnumeration(reg, a, p, b, q);
    ListedMetadataFilled(reg);
  }

  /**
   * `test_plugin_list_metadata`: with the two sample plugins registered, two
   * records are listed and none has an empty field.
   */
  lemma SampleMetadataListed(reg: PluginRegistry, u: Plugin, f: Plugin)
    requires reg.Valid()
    requires u.kind.Uppercase? && f.kind.CodeFormatterPlugin?
    requires reg.plugins == map[UppercaseMetadata.name := u, CodeFormatterMetadata.name := f]
    ensures |reg.ListPlugins()| == 2
    ensures forall i :: 0 <= i < |reg.ListPlugins()| ==> Filled(reg.ListPlugins()[i])
  {
    assert UppercaseMetadata.name[0] != CodeFormatterMetadata.name[0];
    assert Filled(u.Metadata()) && Filled(f.Metadata());
    TwoFilledListed(reg, UppercaseMetadata.name, u, CodeFormatterMetadata.name, f);
  }
}
