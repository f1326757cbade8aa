# style-ext-html-webpack-plugin, modelled in Dafny

This project models the core of a webpack plugin. The plugin finds the generated
stylesheet of a compilation, has the HTML plugin's tags rewritten so that the
stylesheet is inlined, and then deletes the stylesheet asset at emit time.
There are two parts:

- **The resolver** (`find_file.dfy`, module `FindFile`). `findCssFile` builds a
  *matcher* and a *filter*:
  - The matcher is either exact equality with a truthy `cssFilename`, or the
    `cssRegExp` test, which defaults to the `.css` suffix.
  - The filter either accepts every asset name, or accepts the files of the chunks
    selected through `options.chunks`. Those chunks are intersected by identity
    with the chunks of the HTML plugin's own `chunks`.
  - An empty chunk selection is the distinguished `NoFiles` value and gives `null`.
  - Otherwise the result is the first asset key, in enumeration order, that passes
    both the filter and the matcher.
  - `onlyChunkFiles` and `findGeneratedCssFile` are loops in the source, so they are
    methods here. Each is proved equal to a specification function (`ChunkFilter`,
    `FirstMatch`), and the lemmas are stated about those functions.
- **The orchestration** (`plugin.dfy`, module `Plugin`).
  - `StyleExtHtmlWebpackPlugin` is a class whose `filesToDelete` ledger is changed
    in place.
  - `compilationCallback` returns a fresh `StageWiring` object. It stands for the
    closures registered for one compilation and for their shared `let cssFilename`
    variable (`target`).
  - `RunStage` is the unwrapped stage callback. `WrappedFn` is the wrapper that
    routes exceptions.
  - `EmitCallback` flushes the ledger.

The supporting modules:
- `js_values.dfy` holds the JavaScript values: optional values, exceptions and
  truthiness.
- `config.dfy` holds the normalised options record.
- `host.dfy` holds the chunks, entry points and `Compilation` object. Asset keys are
  a sequence in enumeration order. The compilation has an error log, and it logs
  every call into a collaborator.
- `collaborators.dfy` holds the tag rewriter, the style inserter and the file
  remover. Their code is not part of this model.
  - The tag rewriter and the style inserter only record that they were called. Each
    throws exactly when the host-supplied `outcome` says so.
  - The file remover removes the key when it is present and records the call. It
    never throws.
- `scenarios.dfy` holds whole builds and resolutions on example inputs.

JavaScript truthiness is modelled where the code depends on it:
- An empty `cssFilename` falls back to the pattern.
- An empty `chunks` array is still truthy, so the HTML plugin's `chunks` is still
  read. When that value does not make resolution throw, the selection is empty and
  the result is `null`.
- A resolved name `""` is neither ledgered nor passed to a mutator.

Two behaviours of the code are easy to miss, and the model captures both:
- **Resolution can throw.** `lib/findFile.js:30` reads `entrypoints.get(name).chunks`
  without a guard, so an HTML-plugin chunk name with no entry point throws a TypeError.
  - A truthy `chunks` value on the HTML plugin that is not an array (such as the
    string `'all'`) has no `forEach`, so it throws as well.
  - `ResolveThrowsIff` states exactly when resolution throws. `WrappedFn` then
    routes that exception like any other.
- **The ledger is ordered.** The ledger is a JavaScript `Set`, which keeps insertion
  order. It is modelled as a sequence without repetitions, so the order of the
  delete calls is captured too.

## Model

| member | source | states |
|---|---|---|
| FindFile.ValidateCssFile | lib/findFile.js:11 | the matcher accepts exactly the names equal to `cssFilename` |
| FindFile.IdentifyCssFile | lib/findFile.js:8-13 | unset pattern: the matcher accepts exactly names ending in `.css`; set pattern: exactly the names the pattern's test accepts |
| FindFile.FileMatcherFor | lib/findFile.js:53-55 | a truthy `cssFilename` alone decides (`cssRegExp` ignored); otherwise the pattern, with the `.css` suffix as default when both are unset |
| FindFile.FilterNames | lib/findFile.js:41 | the filtered keys are exactly the asset keys the filter accepts; the all-files filter keeps the keys unchanged |
| FindFile.KeepShared | lib/findFile.js:33 | a chunk survives exactly when it is in the first list and a chunk of the same identity is in the HTML plugin's list |
| FindFile.OnlyChunkFiles | lib/findFile.js:17-38 | the two accumulation loops and the final test compute `ChunkFilter`: the selection's chunk filter, `NoFiles` for an empty selection, or the exception thrown |
| FindFile.FindGeneratedCssFile | lib/findFile.js:40-50 | the loop with early return yields the first filtered key the matcher accepts, or null |
| FindFile.FindCssFile | lib/findFile.js:52-64 | the result equals `Resolve` of the options, the HTML plugin's chunks and the compilation's current keys and entry points; the method modifies nothing, so equal states give equal results |
| FindFile.HtmlEntrypointChunksOutcome | lib/findFile.js:29-32 | with every name present, the HTML plugin's chunk list is the concatenation of their chunks; otherwise it throws for the first name without an entry point |
| FindFile.EntrypointChunksConcat | lib/findFile.js:20-26 | the selected chunks of `a + b` are those of `a` followed by those of `b` (concatenation in `chunkNames` order) |
| FindFile.MissingEntrypointSkipped | lib/findFile.js:21-25 | a name without an entry point contributes nothing: dropping it leaves the selection unchanged |
| FindFile.EntrypointChunksMembers | lib/findFile.js:20-26 | a chunk is selected iff it belongs to some named entry point that exists |
| FindFile.KeepSharedConcat | lib/findFile.js:33 | the identity filter distributes over concatenation, so the order of the first list is kept |
| FindFile.KeepSharedMultiplicity | lib/findFile.js:33 | every repetition of a shared chunk is kept, and a chunk not shared occurs zero times |
| FindFile.FindsFirstCandidate | lib/findFile.js:41-47 | the first matching name of the filtered keys is the first key passing filter and matcher, and none exists iff no key passes both |
| FindFile.ResolveWithoutChunks | lib/findFile.js:56-62 | without `chunks` the resolver does not throw; the result is the first asset key the matcher accepts, null iff no key matches |
| FindFile.SelectedChunkOrigin | lib/findFile.js:17-34 | every selected chunk belongs to a named entry point that exists, and, when the HTML plugin lists chunks, has the identity of one of its entry points' chunks |
| FindFile.ResolveThrowsIff | lib/findFile.js:27-32 | resolution throws iff `chunks` is set and the HTML plugin's `chunks` is a truthy non-array or names an entry point that does not exist |
| FindFile.ResolvedNameIsCandidate | lib/findFile.js:35-45 | a non-null result is an asset key the matcher accepts and, with `chunks` set, a file of some selected chunk |
| FindFile.EmptySelectionYieldsNull | lib/findFile.js:59-60 | an empty chunk selection gives null, whatever the assets are |
| Collaborators.ReplaceLinkTagWithStyleTag | lib/plugin.js:81 | records one call to the tag rewriter for the file and minifier, changes no asset and no error, and throws as the host says |
| Collaborators.InsertStyleTagInHtml | lib/plugin.js:93 | records one call to the style inserter for the file, position and minifier, and throws as the host says |
| Collaborators.Remove | lib/plugin.js:133-134 | removing a key keeps exactly the other keys; removing an absent key changes nothing |
| Collaborators.DeleteFileFromCompilation | lib/plugin.js:133-134 | the key is removed if present, one delete call is recorded, and the error log is untouched |
| Plugin.WiredStages | lib/plugin.js:75-97 | `before` first, then exactly one mutation stage: `alter` iff position is 'plugin', `after` otherwise |
| Plugin.SetAdd | lib/plugin.js:70 | adding keeps the ledger free of repetitions; a new name goes at the end, and adding a name already there changes nothing |
| Plugin.WithoutMembers | lib/plugin.js:132-135 | after a flush, an asset remains iff it was present and not ledgered |
| Plugin.FlushIdempotent | lib/plugin.js:132-135 | deleting the same ledgered names again removes nothing more |
| Plugin.EachLedgeredNameDeletedOnce | lib/plugin.js:134 | a ledger without repetitions yields exactly one delete call per ledgered name and none for any other name |
| Plugin.StyleExtHtmlWebpackPlugin.constructor | lib/plugin.js:36-40 | stores the normalised options and starts with an empty ledger |
| Plugin.StyleExtHtmlWebpackPlugin.Apply | lib/plugin.js:42-56 | when disabled nothing is registered; when enabled exactly the compilation and emit handlers are |
| Plugin.StyleExtHtmlWebpackPlugin.CompilationCallback | lib/plugin.js:58-98 | returns fresh wiring for this compilation, with an unset target of its own, the minifier from `minify`, and the stages `WiredStages` gives |
| Plugin.StyleExtHtmlWebpackPlugin.EmitCallback | lib/plugin.js:131-140 | deletes the ledgered names once each in insertion order, empties the ledger, logs no error, and calls a given continuation exactly once |
| Plugin.StyleExtHtmlWebpackPlugin.Inline | lib/plugin.js:144-146 | for any argument, the legacy entry point only reports the legacy-configuration error |
| Plugin.StageWiring.RunStage | lib/plugin.js:62-97 | `before` stores the resolved name and ledgers it only when truthy, and a throw leaves both as they were; `alter`/`after` call the rewriter or inserter once, only when the shared target is truthy |
| Plugin.StageWiring.WrappedFn | lib/plugin.js:104-117 | runs the stage. Without a continuation, a thrown exception is logged to `compilation.errors` and nothing else happens. With one, the error log is untouched: the continuation gets `(null, pluginArgs)` or the exception. If it throws on the result, it is called again with that exception, and what it throws on an error escapes the wrapper |
| Scenarios.EmitTwice | lib/plugin.js:131-140 | the first emit deletes each ledgered file once; a second emit with no new marks deletes nothing and still calls the continuation |
| Scenarios.SingleStylesheetBuild | lib/plugin.js:58-140 | with default options and one `.css` asset (such as `index.css`), one build inserts the style tag for it, deletes the file at emit and logs no error |
| Scenarios.VendorStylesheetNotSelected | lib/findFile.js:17-37 | with `chunks: ["main"]`, a stylesheet that only the `vendor` entry point produces is never the result, whatever the assets are |

## Left out

- Host hook registration is not modelled. This covers the two event vocabularies
  and their name tables, `compiler.hooks` versus `compiler.plugin`, `tap`/`tapAsync`
  and `htmlWebpackPlugin.getHooks` (lib/plugin.js:14-33, 49-55, 118-128). Instead,
  `Apply` records which handlers it registers, and `CompilationCallback` records
  which stages it wires.
- The host calls each wired stage once per compilation, in order. The model takes
  that order as given: `WrappedFn` requires its stage to be a wired one.
- Debug logging is not modelled (lib/plugin.js:39, 119-120; lib/findFile.js:44).
- The minifier is not modelled. It is the value `CleanCss(settings)`, built only when
  `minify` is set. Its compression is outside the model.
- Options normalisation (`config.js`) is not part of this model. The plugin receives
  an `Options` record that is already normalised.
- The tag rewriter, the style inserter and the file remover (`replaceTag.js`,
  `insertStyle.js`, `removeFile.js`) are not part of this model. They are logged
  calls. Whether the rewriter and the inserter throw is an input. The remover is
  modelled as key removal that never throws.
- Collaborators.DeleteFileFromCompilation: a throwing remover is not modelled. If it
  threw, `forEach` would stop at that name, `clear` would be skipped and the emit
  continuation would not be called (lib/plugin.js:133-138).
- What the mutators do to the HTML tag lists and to the asset contents is not
  modelled. Assets are modelled by their keys only.
- Regular expressions are predicates on names. Only the default `/\.css$/` is
  concrete, as "ends in `.css`".
- `entrypoint.chunks` is always an array in the model. The source's `chunks &&`
  guards for an undefined value (lib/findFile.js:24, 31) are then always true.
- Plugin.StyleExtHtmlWebpackPlugin.Inline: `common.js` is not part of this model, so
  the model does not say whether its `error` throws or only logs. The model returns
  the error that `error` reports.
- Concurrency between compilations is not modelled beyond the structure. Each
  compilation gets its own `StageWiring` object, freshly allocated. All of them
  share the one plugin ledger, as in the source.
