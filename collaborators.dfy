/**
 * The tag rewriter, the style inserter and the file remover. Their code is not part
 * of this model: each records that it was called and throws exactly when the host's
 * `outcome` says it does.
 */
module Collaborators {
  import opened JsValues
  import opened Config
  import opened Host

  /** Asks the tag rewriter to replace the link tag of `cssFilename` by a style tag. */
  method ReplaceLinkTagWithStyleTag(cssFilename: string, pluginArgs: HtmlPluginArgs, compilation: Compilation,
                                    minifier: Minifier, outcome: Option<Exception>)
    returns (thrown: Option<Exception>)
    modifies compilation
    ensures compilation.calls == old(compilation.calls) + [ReplacedLinkTag(cssFilename, minifier)]
    ensures compilation.assets == old(compilation.assets) && compilation.errors == old(compilation.errors)
    ensures thrown == outcome
  {
    compilation.calls := compilation.calls + [ReplacedLinkTag(cssFilename, minifier)];
    thrown := outcome;
  }

  /** Asks the style inserter to add a style tag for `cssFilename` at `position`. */
  method InsertStyleTagInHtml(cssFilename: string, position: Position, pluginArgs: HtmlPluginArgs,
                              compilation: Compilation, minifier: Minifier, outcome: Option<Exception>)
    returns (thrown: Option<Exception>)
    modifies compilation
    ensures compilation.calls == old(compilation.calls) + [InsertedStyleTag(cssFilename, position, minifier)]
    ensures compilation.assets == old(compilation.assets) && compilation.errors == old(compilation.errors)
    ensures thrown == outcome
  {
    compilation.calls := compilation.calls + [InsertedStyleTag(cssFilename, position, minifier)];
    thrown := outcome;
  }

  /** The asset keys without `filename`; a missing key is no error. */
  function Remove(assets: seq<string>, filename: string): (r: seq<string>)
    ensures forall x :: x in r <==> x in assets && x != filename
    ensures filename !in assets ==> r == assets
  {
    if assets == [] then []
    else (if assets[0] == filename then [] else [assets[0]]) + Remove(assets[1..], filename)
  }

  /** Removes `filename` from the compilation's assets if it is there. */
  method DeleteFileFromCompilation(compilation: Compilation, filename: string)
    modifies compilation
    ensures compilation.assets == Remove(old(compilation.assets), filename)
    ensures compilation.calls == old(compilation.calls) + [DeletedFile(filename)]
    ensures compilation.errors == old(compilation.errors)
  {
    compilation.assets := Remove(compilation.assets, filename);
    compilation.calls := compilation.calls + [DeletedFile(filename)];
  }
}
