/** Whole builds and resolutions on concrete inputs, as a client of the plugin sees them. */
module Scenarios {
  import opened JsValues
  import opened Config
  import opened Host
  import opened Plugin
  import Collaborators
  import FindFile

  /**
   * Two emits in a row: the first deletes every ledgered file once, the second deletes
   * nothing and still calls the continuation.
   */
  method EmitTwice(plugin: StyleExtHtmlWebpackPlugin, compilation: Compilation)
    returns (first: nat, second: nat)
    requires plugin.Valid()
    modifies plugin, compilation
    ensures plugin.filesToDelete == []
    ensures compilation.calls == old(compilation.calls) + Deletions(old(plugin.filesToDelete))
    ensures compilation.assets == Without(old(compilation.assets), old(plugin.filesToDelete))
    ensures first == 1 && second == 1
  {
    first := plugin.EmitCallback(compilation, true);
    second := plugin.EmitCallback(compilation, true);
  }

  /** The default options: enabled, no name, no pattern, no chunks, at the end of the head, no minifier. */
  function DefaultOptions(): Options {
    Options(true, None, None, None, HeadBottom, None)
  }

  /**
   * One stylesheet asset (such as `index.css`) and the default options: the style tag is
   * inserted for it, the file is deleted at emit, and no error is logged.
   */
  method SingleStylesheetBuild(name: string) returns (assets: seq<string>, calls: seq<Call>, errors: seq<Exception>)
    requires FindFile.EndsWithCss(name)
    ensures assets == [] && errors == []
    ensures calls == [InsertedStyleTag(name, HeadBottom, NoMinifier), DeletedFile(name)]
  {
    var plugin := new StyleExtHtmlWebpackPlugin(DefaultOptions());
    var compilation := new Compilation([name], map[]);
    var wiring := plugin.CompilationCallback(compilation);
    BeforeStageOfSingleStylesheet(wiring, name);
    AfterStageOfSingleStylesheet(wiring, name);
    var callbackCalls := plugin.EmitCallback(compilation, true);
    FlushOfSingleAsset(name);
    assets, calls, errors := compilation.assets, compilation.calls, compilation.errors;
  }

  /** The `before` stage resolves the only asset, ledgers it and logs nothing. */
  method BeforeStageOfSingleStylesheet(wiring: StageWiring, name: string)
    requires FindFile.EndsWithCss(name)
    requires wiring.plugin.Valid() && wiring.stages == WiredStages(HeadBottom)
    requires wiring.plugin.options == DefaultOptions() && wiring.plugin.filesToDelete == []
    requires wiring.compilation.assets == [name] && wiring.compilation.entrypoints == map[]
    modifies wiring, wiring.plugin, wiring.compilation
    ensures wiring.plugin.Valid() && wiring.target == Some(name) && wiring.plugin.filesToDelete == [name]
    ensures wiring.compilation.assets == [name]
    ensures wiring.compilation.calls == old(wiring.compilation.calls)
    ensures wiring.compilation.errors == old(wiring.compilation.errors)
  {
    DefaultOptionsFindStylesheet(DefaultOptions(), name);
    var replies, escaped := wiring.WrappedFn(Before, HtmlPluginArgs(Unset), None, None);
  }

  /** The `after` stage asks the inserter for the resolved name and logs nothing. */
  method AfterStageOfSingleStylesheet(wiring: StageWiring, name: string)
    requires wiring.plugin.Valid() && wiring.stages == WiredStages(HeadBottom)
    requires wiring.plugin.options == DefaultOptions() && wiring.minifier == NoMinifier
    requires wiring.target == Some(name) && name != ""
    modifies wiring, wiring.plugin, wiring.compilation
    ensures wiring.plugin.Valid() && wiring.plugin.filesToDelete == old(wiring.plugin.filesToDelete)
    ensures wiring.compilation.assets == old(wiring.compilation.assets)
    ensures wiring.compilation.calls == old(wiring.compilation.calls) + [InsertedStyleTag(name, HeadBottom, NoMinifier)]
    ensures wiring.compilation.errors == old(wiring.compilation.errors)
  {
    var replies, escaped := wiring.WrappedFn(After, HtmlPluginArgs(Unset), None, None);
  }

  /** The default matcher finds a `.css` asset when it is the only one. */
  lemma {:induction false} DefaultOptionsFindStylesheet(options: Options, name: string)
    requires options == DefaultOptions()
    requires FindFile.EndsWithCss(name)
    ensures FindFile.Resolve(options, Unset, [name], map[]) == Returned(Some(name))
  {
  }

  /** Flushing the ledger `[name]` deletes the only asset with one delete call. */
  lemma {:induction false} FlushOfSingleAsset(name: string)
    ensures Without([name], [name]) == []
    ensures Deletions([name]) == [DeletedFile(name)]
  {
  }

  /**
   * With `chunks: ["main"]`, a stylesheet that only the `vendor` entry point produces is
   * never the result, whatever the assets are.
   */
  lemma {:induction false} VendorStylesheetNotSelected(mainFiles: seq<string>, vendorCss: string, assets: seq<string>)
    requires vendorCss !in mainFiles
    ensures var options := Options(true, None, None, Some(["main"]), HeadBottom, None);
      var entrypoints := map["main" := [Chunk(1, mainFiles)], "vendor" := [Chunk(2, [vendorCss])]];
      FindFile.Resolve(options, Unset, assets, entrypoints) != Returned(Some(vendorCss))
  {
    var options := Options(true, None, None, Some(["main"]), HeadBottom, None);
    var entrypoints := map["main" := [Chunk(1, mainFiles)], "vendor" := [Chunk(2, [vendorCss])]];
    assert FindFile.EntrypointChunks(["main"], entrypoints) == [Chunk(1, mainFiles)] by {
      assert ["main"][..0] == [];
    }
    var filter := FindFile.InChunks([Chunk(1, mainFiles)]);
    assert !FindFile.Accepts(filter, vendorCss);
    FindFile.FindsFirstCandidate(assets, filter, FindFile.FileMatcherFor(options));
  }
}
