/**
 * The plugin vocabulary of `src/plugins/mod.rs`: metadata, capabilities,
 * errors, and the default `pre_process` / `post_process` of the `Plugin` trait.
 */
module PluginApi {
  import opened Common

  datatype PluginMetadata = PluginMetadata(name: string, version: string, description: string, author: string)

  datatype PluginCapability = PreProcessor | PostProcessor | CodeFormatter | CustomCommand

  datatype PluginError =
    | InitializationError(detail: string)
    | ProcessingError(detail: string)
    | NotFound(detail: string)

  /** The text each error displays. */
  function Message(e: PluginError): (r: string)
    ensures |e.detail| <= |r| && r[|r| - |e.detail|..] == e.detail
  {
    match e
    case InitializationError(d) => "Plugin initialization failed: " + d
    case ProcessingError(d) => "Plugin processing error: " + d
    case NotFound(d) => "Plugin not found: " + d
  }

  /** Distinct errors display differently: the message determines the kind and the detail. */
  lemma MessageInjective(a: PluginError, b: PluginError)
    requires Message(a) == Message(b)
    ensures a == b
  {
    var ma, mb := Message(a), Message(b);
    assert ma[7] == mb[7];
    match a {
      case InitializationError(d) =>
        assert ma[7] == 'i';
        assert b.InitializationError?;
        assert d == ma[30..] == mb[30..] == b.detail;
      case ProcessingError(d) =>
        assert ma[7] == 'p';
        assert b.ProcessingError?;
        assert d == ma[25..] == mb[25..] == b.detail;
      case NotFound(d) =>
        assert ma[7] == 'n';
        assert b.NotFound?;
        assert d == ma[18..] == mb[18..] == b.detail;
    }
  }

  /** The trait's default `pre_process` and `post_process`: the input, unchanged. */
  function DefaultProcess(input: string): Result<string, PluginError> {
    Ok(input)
  }
}
