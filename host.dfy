/** The parts of the bundler's compilation and of the HTML plugin that the core reads or changes. */
module Host {
  import opened JsValues
  import opened Config

  /** A chunk: `id` stands for the chunk object's identity, `files` for its output file names. */
  datatype Chunk = Chunk(id: nat, files: seq<string>)

  /** `compilation.entrypoints`: entry point name to that entry point's chunks. */
  type Entrypoints = map<string, seq<Chunk>>

  /**
   * The HTML plugin's own `chunks` option: falsy, an array of entry point names,
   * or some other truthy value (such as the string 'all'), which has no `forEach`.
   */
  datatype HtmlChunks = Unset | Names(names: seq<string>) | NotAList

  /** The part of the HTML plugin's event payload the core reads: `pluginArgs.plugin.options.chunks`. */
  datatype HtmlPluginArgs = HtmlPluginArgs(chunks: HtmlChunks)

  /** A call into a collaborator whose code is not modelled, recorded on the compilation. */
  datatype Call =
    | ReplacedLinkTag(cssFilename: string, minifier: Minifier)
    | InsertedStyleTag(cssFilename: string, position: Position, minifier: Minifier)
    | DeletedFile(filename: string)

  /**
   * One compilation: the keys of `assets` in enumeration order, the entry points,
   * the error log and the log of collaborator calls made on it.
   */
  class Compilation {
    var assets: seq<string>
    const entrypoints: Entrypoints
    var errors: seq<Exception>
    var calls: seq<Call>

    constructor (assets: seq<string>, entrypoints: Entrypoints)
      ensures this.assets == assets && this.entrypoints == entrypoints
      ensures errors == [] && calls == []
    {
      this.assets := assets;
      this.entrypoints := entrypoints;
      errors := [];
      calls := [];
    }
  }
}
