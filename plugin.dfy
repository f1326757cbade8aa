/**
 * The plugin's orchestration: a per-instance deletion ledger, the per-compilation
 * resolved target shared by the stage callbacks, the error routing of the wrapped
 * callbacks and the ledger flush at emit time.
 */
module Plugin {
  import opened JsValues
  import opened Config
  import opened Host
  import opened Collaborators
  import FindFile

  /** The three HTML plugin events a compilation can be wired to. */
  datatype Stage = Before | Alter | After

  /** One call of the host's continuation by a wrapped callback: `callback(null, pluginArgs)` or `callback(err)`. */
  datatype Reply = Continued(pluginArgs: HtmlPluginArgs) | Failed(error: Exception)

  /**
   * The host's continuation, by what it throws when called with a result (`onResult`)
   * and when called with an error (`onError`).
   */
  datatype Continuation = Continuation(onResult: Option<Exception>, onError: Option<Exception>)

  /** A handler registered on the compiler. */
  datatype Registration = OnCompilation | OnEmit

  /** The compiler, as far as `apply` registers handlers on it. */
  class Compiler {
    var registrations: seq<Registration>

    constructor ()
      ensures registrations == []
    {
      registrations := [];
    }
  }

  /** The stages `compilationCallback` wires for a position: `before`, then exactly one mutation stage. */
  function WiredStages(position: Position): (stages: seq<Stage>)
    ensures |stages| == 2 && stages[0] == Before
    ensures Alter in stages <==> position == Plugin
    ensures After in stages <==> position != Plugin
  {
    [Before] + (if position == Plugin then [Alter] else []) + (if position != Plugin then [After] else [])
  }

  /** The minifier `compilationCallback` builds: one only when `minify` is set. */
  function MinifierFor(options: Options): Minifier {
    if options.minify.Some? then CleanCss(options.minify.value) else NoMinifier
  }

  /** No file name occurs twice. */
  predicate NoDuplicates(s: seq<string>) {
    forall i, j :: 0 <= i < j < |s| ==> s[i] != s[j]
  }

  /** `Set.prototype.add` on an insertion-ordered set of names. */
  function SetAdd(ledger: seq<string>, name: string): (r: seq<string>)
    ensures forall x :: x in r <==> x in ledger || x == name
    ensures NoDuplicates(ledger) ==> NoDuplicates(r)
    ensures name in ledger ==> r == ledger
    ensures name !in ledger ==> r == ledger + [name]
  {
    if name in ledger then ledger else ledger + [name]
  }

  /** The asset keys left after removing each of `names` in turn. */
  function Without(assets: seq<string>, names: seq<string>): seq<string>
    decreases |names|
  {
    if names == [] then assets
    else Remove(Without(assets, names[..|names| - 1]), names[|names| - 1])
  }

  /** The delete calls for `names`, in their order. */
  function Deletions(names: seq<string>): seq<Call>
    decreases |names|
  {
    if names == [] then [] else Deletions(names[..|names| - 1]) + [DeletedFile(names[|names| - 1])]
  }

  /** Flushing keeps exactly the assets that are not ledgered. */
  lemma {:induction false} WithoutMembers(assets: seq<string>, names: seq<string>, x: string)
    ensures x in Without(assets, names) <==> x in assets && x !in names
    decreases |names|
  {
    if names != [] {
      var init := names[..|names| - 1];
      WithoutMembers(assets, init, x);
      assert names == init + [names[|names| - 1]];
    }
  }

  /** Flushing names none of which is an asset any more changes nothing. */
  lemma {:induction false} WithoutAbsent(assets: seq<string>, names: seq<string>)
    requires forall k :: 0 <= k < |names| ==> names[k] !in assets
    ensures Without(assets, names) == assets
    decreases |names|
  {
    if names != [] {
      WithoutAbsent(assets, names[..|names| - 1]);
    }
  }

  /** Flushing the same ledger a second time removes nothing more. */
  lemma {:induction false} FlushIdempotent(assets: seq<string>, names: seq<string>)
    ensures Without(Without(assets, names), names) == Without(assets, names)
  {
    forall k | 0 <= k < |names| ensures names[k] !in Without(assets, names) {
      WithoutMembers(assets, names, names[k]);
    }
    WithoutAbsent(Without(assets, names), names);
  }

  /** A ledger without repetitions gives exactly one delete call per ledgered name and none for any other. */
  lemma {:induction false} EachLedgeredNameDeletedOnce(names: seq<string>, x: string)
    requires NoDuplicates(names)
    ensures multiset(Deletions(names))[DeletedFile(x)] == if x in names then 1 else 0
    decreases |names|
  {
    if names != [] {
      var init := names[..|names| - 1];
      assert NoDuplicates(init);
      EachLedgeredNameDeletedOnce(init, x);
      assert names == init + [names[|names| - 1]];
      assert names[|names| - 1] !in init;
    }
  }

  /** The per-instance plugin object and its deletion ledger. */
  class StyleExtHtmlWebpackPlugin {
    const options: Options
    var filesToDelete: seq<string>

    ghost predicate Valid()
      reads this
    {
      NoDuplicates(filesToDelete)
    }

    constructor (options: Options)
      ensures Valid()
      ensures this.options == options && filesToDelete == []
    {
      this.options := options;
      filesToDelete := [];
    }

    /** Registers the compilation and emit handlers, unless the plugin is disabled. */
    method Apply(compiler: Compiler)
      modifies compiler
      ensures !options.enabled ==> compiler.registrations == old(compiler.registrations)
      ensures options.enabled ==> compiler.registrations == old(compiler.registrations) + [OnCompilation, OnEmit]
    {
      if !options.enabled {
        return;
      }
      compiler.registrations := compiler.registrations + [OnCompilation, OnEmit];
    }

    /** Wires a fresh set of stage callbacks, sharing a fresh unset target, to one compilation. */
    method CompilationCallback(compilation: Compilation) returns (wiring: StageWiring)
      ensures fresh(wiring)
      ensures wiring.plugin == this && wiring.compilation == compilation
      ensures wiring.minifier == MinifierFor(options)
      ensures wiring.stages == WiredStages(options.position)
      ensures wiring.target == None
    {
      wiring := new StageWiring(this, compilation, MinifierFor(options), WiredStages(options.position));
    }

    /** Deletes every ledgered file once, in insertion order, empties the ledger and continues. */
    method EmitCallback(compilation: Compilation, hasCallback: bool) returns (callbackCalls: nat)
      requires Valid()
      modifies this, compilation
      ensures Valid() && filesToDelete == []
      ensures compilation.assets == Without(old(compilation.assets), old(filesToDelete))
      ensures compilation.calls == old(compilation.calls) + Deletions(old(filesToDelete))
      ensures compilation.errors == old(compilation.errors)
      ensures callbackCalls == if hasCallback then 1 else 0
    {
      if |filesToDelete| > 0 {
        var pending := filesToDelete;
        var i := 0;
        while i < |pending|
          invariant 0 <= i <= |pending|
          invariant compilation.assets == Without(old(compilation.assets), pending[..i])
          invariant compilation.calls == old(compilation.calls) + Deletions(pending[..i])
          invariant compilation.errors == old(compilation.errors)
        {
          assert pending[..i + 1][..i] == pending[..i];
          DeleteFileFromCompilation(compilation, pending[i]);
          i := i + 1;
        }
        assert pending[..i] == pending;
        filesToDelete := [];
      }
      callbackCalls := 0;
      if hasCallback {
        callbackCalls := callbackCalls + 1;
      }
    }

    /** The guard for configurations older than version 3: it only reports the migration error. */
    static function Inline(loaders: seq<string>): (e: Exception)
      ensures e.LegacyConfiguration?
    {
      LegacyConfiguration
    }
  }

  /**
   * The closures `compilationCallback` registers for one compilation, with the
   * `cssFilename` variable they share (`target`).
   */
  class StageWiring {
    const plugin: StyleExtHtmlWebpackPlugin
    const compilation: Compilation
    const minifier: Minifier
    const stages: seq<Stage>
    var target: Option<string>

    constructor (plugin: StyleExtHtmlWebpackPlugin, compilation: Compilation, minifier: Minifier, stages: seq<Stage>)
      ensures this.plugin == plugin && this.compilation == compilation
      ensures this.minifier == minifier && this.stages == stages
      ensures target == None
    {
      this.plugin := plugin;
      this.compilation := compilation;
      this.minifier := minifier;
      this.stages := stages;
      target := None;
    }

    /** The exception the callback of `stage` throws in the current state, if any. */
    function Thrown(stage: Stage, pluginArgs: HtmlPluginArgs, outcome: Option<Exception>): Option<Exception>
      reads this, compilation
    {
      match stage
      case Before =>
        var r := FindFile.Resolve(plugin.options, pluginArgs.chunks, compilation.assets, compilation.entrypoints);
        if r.Threw? then Some(r.exception) else None
      case _ => if Truthy(target) then outcome else None
    }

    /**
     * What the callback of `stage` does to the target, the ledger, the assets and the
     * collaborator calls. `before` stores the resolved name (unless resolution threw)
     * and ledgers it when truthy; the mutation stages change only the call log, and
     * only when the target is truthy.
     */
    twostate predicate StageRan(stage: Stage, pluginArgs: HtmlPluginArgs)
      reads this, plugin, compilation
    {
      compilation.assets == old(compilation.assets) &&
      match stage
      case Before =>
        var r := FindFile.Resolve(plugin.options, pluginArgs.chunks, old(compilation.assets), compilation.entrypoints);
        compilation.calls == old(compilation.calls) &&
        (r.Threw? ==> target == old(target) && plugin.filesToDelete == old(plugin.filesToDelete)) &&
        (r.Returned? ==>
           target == r.value &&
           plugin.filesToDelete == if Truthy(r.value) then SetAdd(old(plugin.filesToDelete), r.value.value)
                                   else old(plugin.filesToDelete))
      case Alter =>
        target == old(target) && plugin.filesToDelete == old(plugin.filesToDelete) &&
        compilation.calls == old(compilation.calls) +
          (if Truthy(target) then [ReplacedLinkTag(target.value, minifier)] else [])
      case After =>
        target == old(target) && plugin.filesToDelete == old(plugin.filesToDelete) &&
        compilation.calls == old(compilation.calls) +
          (if Truthy(target) then [InsertedStyleTag(target.value, plugin.options.position, minifier)] else [])
    }

    /**
     * The unwrapped callback of `stage`. `outcome` is what the tag rewriter or the style
     * inserter throws when called; the stage calls one only when the target is truthy.
     */
    method RunStage(stage: Stage, pluginArgs: HtmlPluginArgs, outcome: Option<Exception>)
      returns (thrown: Option<Exception>)
      requires plugin.Valid()
      modifies this, plugin, compilation
      ensures plugin.Valid() && StageRan(stage, pluginArgs)
      ensures thrown == old(Thrown(stage, pluginArgs, outcome))
      ensures compilation.errors == old(compilation.errors)
    {
      thrown := None;
      match stage {
        case Before =>
          var r := FindFile.FindCssFile(plugin.options, pluginArgs, compilation);
          match r {
            case Threw(e) =>
              thrown := Some(e);
            case Returned(cssFilename) =>
              target := cssFilename;
              if Truthy(target) {
                plugin.filesToDelete := SetAdd(plugin.filesToDelete, target.value);
              }
          }
        case Alter =>
          if Truthy(target) {
            thrown := ReplaceLinkTagWithStyleTag(target.value, pluginArgs, compilation, minifier, outcome);
          }
        case After =>
          if Truthy(target) {
            thrown := InsertStyleTagInHtml(target.value, plugin.options.position, pluginArgs, compilation,
                                           minifier, outcome);
          }
      }
    }

    /**
     * The wrapped callback the host calls. Without a continuation, an exception of the
     * stage goes to the compilation's error log. With one, the continuation gets the
     * result or the exception; when it throws on the result, the `catch` calls it a second
     * time with that exception, and what it throws then escapes the wrapper (`escaped`).
     */
    method WrappedFn(stage: Stage, pluginArgs: HtmlPluginArgs, callback: Option<Continuation>, outcome: Option<Exception>)
      returns (replies: seq<Reply>, escaped: Option<Exception>)
      requires stage in stages && plugin.Valid()
      modifies this, plugin, compilation
      ensures plugin.Valid() && StageRan(stage, pluginArgs)
      ensures var thrown := old(Thrown(stage, pluginArgs, outcome));
        callback.None? ==>
          replies == [] && escaped == None &&
          compilation.errors == old(compilation.errors) + (if thrown.Some? then [thrown.value] else [])
      ensures callback.Some? ==> compilation.errors == old(compilation.errors)
      ensures var thrown := old(Thrown(stage, pluginArgs, outcome));
        callback.Some? && thrown.Some? ==>
          replies == [Failed(thrown.value)] && escaped == callback.value.onError
      ensures var thrown := old(Thrown(stage, pluginArgs, outcome));
        callback.Some? && thrown.None? ==>
          replies == [Continued(pluginArgs)] + (if callback.value.onResult.Some? then [Failed(callback.value.onResult.value)] else []) &&
          escaped == (if callback.value.onResult.Some? then callback.value.onError else None)
      ensures |replies| <= 2
      ensures escaped.Some? ==> replies != [] && replies[|replies| - 1].Failed?
    {
      var thrown := RunStage(stage, pluginArgs, outcome);
      replies, escaped := [], None;
      var caught := thrown;
      if thrown.None? && callback.Some? {
        replies := [Continued(pluginArgs)];
        caught := callback.value.onResult;
      }
      if caught.Some? {
        if callback.Some? {
          replies := replies + [Failed(caught.value)];
          escaped := callback.value.onError;
        } else {
          compilation.errors := compilation.errors + [caught.value];
        }
      }
    }
  }
}
