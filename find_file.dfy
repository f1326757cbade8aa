/**
 * The stylesheet resolver: picks at most one generated asset name of a compilation,
 * using a matcher (exact name or pattern) and a filter (all files, or the files of
 * selected chunks).
 */
module FindFile {
  import opened JsValues
  import opened Config
  import opened Host

  // ---------------------------------------------------------------------------
  // Matchers
  // ---------------------------------------------------------------------------

  /** The default pattern `/\.css$/`: the name ends in ".css". */
  predicate EndsWithCss(filename: string) {
    |filename| >= 4 && filename[|filename| - 4..] == ".css"
  }

  /** A file matcher: equality with a configured name, or a pattern test. */
  datatype FileMatcher = SameName(cssFilename: string) | NamePattern(test: string -> bool)

  predicate Matches(m: FileMatcher, filename: string) {
    match m
    case SameName(name) => filename == name
    case NamePattern(test) => test(filename)
  }

  /** The matcher for an explicit `cssFilename`. */
  function ValidateCssFile(cssFilename: string): (m: FileMatcher)
    ensures forall f :: Matches(m, f) <==> f == cssFilename
  {
    SameName(cssFilename)
  }

  /** The matcher for `cssRegExp`, falling back to the ".css" suffix when it is unset. */
  function IdentifyCssFile(cssRegex: Option<string -> bool>): (m: FileMatcher)
    ensures cssRegex.None? ==> forall f :: Matches(m, f) <==> EndsWithCss(f)
    ensures cssRegex.Some? ==> forall f :: Matches(m, f) <==> cssRegex.value(f)
  {
    NamePattern(if cssRegex.Some? then cssRegex.value else EndsWithCss)
  }

  /** The matcher `findCssFile` builds: a truthy `cssFilename` wins and `cssRegExp` is then ignored. */
  function FileMatcherFor(options: Options): (m: FileMatcher)
    ensures Truthy(options.cssFilename) ==> forall f :: Matches(m, f) <==> f == options.cssFilename.value
    ensures !Truthy(options.cssFilename) && options.cssRegExp.None? ==>
      forall f :: Matches(m, f) <==> EndsWithCss(f)
    ensures !Truthy(options.cssFilename) && options.cssRegExp.Some? ==>
      forall f :: Matches(m, f) <==> options.cssRegExp.value(f)
  {
    if Truthy(options.cssFilename) then ValidateCssFile(options.cssFilename.value)
    else IdentifyCssFile(options.cssRegExp)
  }

  // ---------------------------------------------------------------------------
  // Filters
  // ---------------------------------------------------------------------------

  /**
   * A file filter: every name, the names in the files of some selected chunk, or the
   * distinguished "no files" value for an empty chunk selection.
   */
  datatype FileFilter = AllFiles | InChunks(chunks: seq<Chunk>) | NoFiles

  /** Whether the filter lets `filename` through; "no files" lets nothing through. */
  predicate Accepts(f: FileFilter, filename: string) {
    match f
    case AllFiles => true
    case InChunks(chunks) => exists c :: c in chunks && filename in c.files
    case NoFiles => false
  }

  /** `names.filter(fileFilter)`: the names the filter accepts, in their order. */
  function FilterNames(names: seq<string>, f: FileFilter): (r: seq<string>)
    ensures forall x :: x in r <==> x in names && Accepts(f, x)
    ensures f.AllFiles? ==> r == names
  {
    if names == [] then []
    else (if Accepts(f, names[0]) then [names[0]] else []) + FilterNames(names[1..], f)
  }

  /** The chunks of one named entry point; no chunks when it does not exist. */
  function ChunksNamed(name: string, entrypoints: Entrypoints): seq<Chunk> {
    if name in entrypoints then entrypoints[name] else []
  }

  /** The chunks of the named entry points, concatenated in the order of `names`. */
  function EntrypointChunks(names: seq<string>, entrypoints: Entrypoints): seq<Chunk>
    decreases |names|
  {
    if names == [] then []
    else EntrypointChunks(names[..|names| - 1], entrypoints) + ChunksNamed(names[|names| - 1], entrypoints)
  }

  /**
   * The HTML plugin's chunk list: like `EntrypointChunks`, except that the first name
   * without an entry point throws, because `entrypoints.get(name).chunks` is unguarded.
   */
  function HtmlEntrypointChunks(names: seq<string>, entrypoints: Entrypoints): Outcome<seq<Chunk>>
    decreases |names|
  {
    if names == [] then Returned([])
    else
      var last := names[|names| - 1];
      match HtmlEntrypointChunks(names[..|names| - 1], entrypoints)
      case Threw(e) => Threw(e)
      case Returned(chunks) =>
        if last in entrypoints then Returned(chunks + entrypoints[last]) else Threw(UndefinedEntrypoint(last))
  }

  /** Whether a chunk with the identity of `c` occurs in `pool`. */
  predicate Among(c: Chunk, pool: seq<Chunk>) {
    exists d :: d in pool && d.id == c.id
  }

  /** `chunks.filter(chunk => pool.indexOf(chunk) > -1)`: order and repetitions of `chunks` kept. */
  function KeepShared(chunks: seq<Chunk>, pool: seq<Chunk>): (r: seq<Chunk>)
    ensures forall c :: c in r <==> c in chunks && Among(c, pool)
  {
    if chunks == [] then []
    else (if Among(chunks[0], pool) then [chunks[0]] else []) + KeepShared(chunks[1..], pool)
  }

  /** The selected chunk set of `onlyChunkFiles`, or the exception it throws. */
  function ChunkSelection(chunkNames: seq<string>, htmlChunks: HtmlChunks, entrypoints: Entrypoints)
    : Outcome<seq<Chunk>>
  {
    var matching := EntrypointChunks(chunkNames, entrypoints);
    match htmlChunks
    case Unset => Returned(matching)
    case NotAList => Threw(NotAFunction("forEach"))
    case Names(htmlNames) =>
      match HtmlEntrypointChunks(htmlNames, entrypoints)
      case Threw(e) => Threw(e)
      case Returned(pool) => Returned(KeepShared(matching, pool))
  }

  /** The filter `onlyChunkFiles` returns: "no files" exactly for an empty selection. */
  function ChunkFilter(chunkNames: seq<string>, htmlChunks: HtmlChunks, entrypoints: Entrypoints)
    : Outcome<FileFilter>
  {
    match ChunkSelection(chunkNames, htmlChunks, entrypoints)
    case Threw(e) => Threw(e)
    case Returned(chunks) => Returned(if |chunks| > 0 then InChunks(chunks) else NoFiles)
  }

  // ---------------------------------------------------------------------------
  // Selection
  // ---------------------------------------------------------------------------

  /** The first name the matcher accepts, in sequence order. */
  function FirstMatch(names: seq<string>, m: FileMatcher): Option<string> {
    if names == [] then None
    else if Matches(m, names[0]) then Some(names[0])
    else FirstMatch(names[1..], m)
  }

  /** The result of `findCssFile` for the options, the HTML plugin's chunks and the compilation's state. */
  function Resolve(options: Options, htmlChunks: HtmlChunks, assets: seq<string>, entrypoints: Entrypoints)
    : Outcome<Option<string>>
  {
    var matcher := FileMatcherFor(options);
    var filter := if options.chunks.Some? then ChunkFilter(options.chunks.value, htmlChunks, entrypoints)
                  else Returned(AllFiles);
    match filter
    case Threw(e) => Threw(e)
    case Returned(f) => if f.NoFiles? then Returned(None) else Returned(FirstMatch(FilterNames(assets, f), matcher))
  }

  /** A name that passes both the filter and the matcher. */
  predicate Candidate(f: FileFilter, m: FileMatcher, filename: string) {
    Accepts(f, filename) && Matches(m, filename)
  }

  // ---------------------------------------------------------------------------
  // The imperative operations
  // ---------------------------------------------------------------------------

  /** `onlyChunkFiles`: collects the selected chunks with two loops and returns the filter. */
  method OnlyChunkFiles(chunkNames: seq<string>, htmlWebpackPluginChunks: HtmlChunks, compilation: Compilation)
    returns (r: Outcome<FileFilter>)
    ensures r == ChunkFilter(chunkNames, htmlWebpackPluginChunks, compilation.entrypoints)
  {
    var entrypoints := compilation.entrypoints;
    var matchingChunks: seq<Chunk> := [];
    var i := 0;
    while i < |chunkNames|
      invariant 0 <= i <= |chunkNames|
      invariant matchingChunks == EntrypointChunks(chunkNames[..i], entrypoints)
    {
      assert chunkNames[..i + 1][..i] == chunkNames[..i];
      if chunkNames[i] in entrypoints {
        matchingChunks := matchingChunks + entrypoints[chunkNames[i]];
      }
      i := i + 1;
    }
    assert chunkNames[..i] == chunkNames;
    match htmlWebpackPluginChunks {
      case Unset =>
      case NotAList =>
        return Threw(NotAFunction("forEach"));
      case Names(htmlNames) =>
        var htmlMatchingChunks: seq<Chunk> := [];
        var j := 0;
        while j < |htmlNames|
          invariant 0 <= j <= |htmlNames|
          invariant forall k :: 0 <= k < j ==> htmlNames[k] in entrypoints
          invariant htmlMatchingChunks == EntrypointChunks(htmlNames[..j], entrypoints)
        {
          assert htmlNames[..j + 1][..j] == htmlNames[..j];
          if htmlNames[j] !in entrypoints {
            HtmlEntrypointChunksOutcome(htmlNames, entrypoints);
            return Threw(UndefinedEntrypoint(htmlNames[j]));
          }
          htmlMatchingChunks := htmlMatchingChunks + entrypoints[htmlNames[j]];
          j := j + 1;
        }
        assert htmlNames[..j] == htmlNames;
        HtmlEntrypointChunksOutcome(htmlNames, entrypoints);
        matchingChunks := KeepShared(matchingChunks, htmlMatchingChunks);
    }
    if |matchingChunks| > 0 {
      r := Returned(InChunks(matchingChunks));
    } else {
      r := Returned(NoFiles);
    }
  }

  /** `findGeneratedCssFile`: the first filtered asset name the matcher accepts, or null. */
  method FindGeneratedCssFile(fileMatcher: FileMatcher, fileFilter: FileFilter, compilation: Compilation)
    returns (r: Option<string>)
    ensures r == FirstMatch(FilterNames(compilation.assets, fileFilter), fileMatcher)
  {
    var filenames := FilterNames(compilation.assets, fileFilter);
    var i := 0;
    while i < |filenames|
      invariant 0 <= i <= |filenames|
      invariant FirstMatch(filenames[i..], fileMatcher) == FirstMatch(filenames, fileMatcher)
    {
      if Matches(fileMatcher, filenames[i]) {
        return Some(filenames[i]);
      }
      assert filenames[i..][1..] == filenames[i + 1..];
      i := i + 1;
    }
    return None;
  }

  /**
   * `findCssFile`: reads the compilation and changes nothing, so equal states give equal
   * results. Of the HTML plugin's event payload it reads `pluginArgs.plugin.options.chunks`.
   */
  method FindCssFile(options: Options, pluginArgs: HtmlPluginArgs, compilation: Compilation)
    returns (r: Outcome<Option<string>>)
    ensures r == Resolve(options, pluginArgs.chunks, compilation.assets, compilation.entrypoints)
  {
    var fileMatcher := FileMatcherFor(options);
    var fileFilter: Outcome<FileFilter>;
    if options.chunks.Some? {
      fileFilter := OnlyChunkFiles(options.chunks.value, pluginArgs.chunks, compilation);
    } else {
      fileFilter := Returned(AllFiles);
    }
    match fileFilter {
      case Threw(e) =>
        r := Threw(e);
      case Returned(f) =>
        if f.NoFiles? {
          r := Returned(None);
        } else {
          var found := FindGeneratedCssFile(fileMatcher, f, compilation);
          r := Returned(found);
        }
    }
  }

  // ---------------------------------------------------------------------------
  // Lemmas
  // ---------------------------------------------------------------------------

  /** The HTML plugin's chunk list throws exactly at its first name without an entry point. */
  lemma {:induction false} HtmlEntrypointChunksOutcome(names: seq<string>, entrypoints: Entrypoints)
    ensures (forall k :: 0 <= k < |names| ==> names[k] in entrypoints) ==>
      HtmlEntrypointChunks(names, entrypoints) == Returned(EntrypointChunks(names, entrypoints))
    ensures forall j :: 0 <= j < |names| && names[j] !in entrypoints &&
                        (forall k :: 0 <= k < j ==> names[k] in entrypoints) ==>
      HtmlEntrypointChunks(names, entrypoints) == Threw(UndefinedEntrypoint(names[j]))
    ensures HtmlEntrypointChunks(names, entrypoints).Returned? ==>
      forall k :: 0 <= k < |names| ==> names[k] in entrypoints
  {
    if names != [] {
      var init, last := names[..|names| - 1], names[|names| - 1];
      HtmlEntrypointChunksOutcome(init, entrypoints);
      assert forall k :: 0 <= k < |init| ==> init[k] == names[k];
      forall j | 0 <= j < |names| && names[j] !in entrypoints && (forall k :: 0 <= k < j ==> names[k] in entrypoints)
        ensures HtmlEntrypointChunks(names, entrypoints) == Threw(UndefinedEntrypoint(names[j]))
      {
        if j < |init| {
          assert HtmlEntrypointChunks(init, entrypoints) == Threw(UndefinedEntrypoint(init[j]));
        } else {
          assert HtmlEntrypointChunks(init, entrypoints) == Returned(EntrypointChunks(init, entrypoints));
        }
      }
    }
  }

  /** Concatenating name lists concatenates their chunk lists. */
  lemma {:induction false} EntrypointChunksConcat(a: seq<string>, b: seq<string>, entrypoints: Entrypoints)
    ensures EntrypointChunks(a + b, entrypoints) == EntrypointChunks(a, entrypoints) + EntrypointChunks(b, entrypoints)
    decreases |b|
  {
    if b == [] {
      assert a + b == a;
    } else {
      var init := b[..|b| - 1];
      assert (a + b)[..|a + b| - 1] == a + init;
      assert (a + b)[|a + b| - 1] == b[|b| - 1];
      EntrypointChunksConcat(a, init, entrypoints);
    }
  }

  /** A name without an entry point is skipped silently. */
  lemma {:induction false} MissingEntrypointSkipped(names: seq<string>, i: nat, entrypoints: Entrypoints)
    requires i < |names| && names[i] !in entrypoints
    ensures EntrypointChunks(names, entrypoints) == EntrypointChunks(names[..i] + names[i + 1..], entrypoints)
  {
    var before, missing, after := names[..i], [names[i]], names[i + 1..];
    assert names == (before + missing) + after;
    assert EntrypointChunks(missing, entrypoints) == [] by {
      assert missing[..0] == [];
    }
    EntrypointChunksConcat(before, missing, entrypoints);
    EntrypointChunksConcat(before + missing, after, entrypoints);
    EntrypointChunksConcat(before, after, entrypoints);
  }

  /** Every chunk in the list comes from a named entry point that exists, and every such chunk is in it. */
  lemma {:induction false} EntrypointChunksMembers(names: seq<string>, entrypoints: Entrypoints, c: Chunk)
    ensures c in EntrypointChunks(names, entrypoints) <==>
      exists i :: 0 <= i < |names| && names[i] in entrypoints && c in entrypoints[names[i]]
    decreases |names|
  {
    if names != [] {
      var init := names[..|names| - 1];
      EntrypointChunksMembers(init, entrypoints, c);
      assert forall i :: 0 <= i < |init| ==> init[i] == names[i];
      if c in ChunksNamed(names[|names| - 1], entrypoints) {
        assert names[|names| - 1] in entrypoints && c in entrypoints[names[|names| - 1]];
      }
    }
  }

  /** The identity filter distributes over concatenation, so it keeps the order of `chunks`. */
  lemma {:induction false} KeepSharedConcat(a: seq<Chunk>, b: seq<Chunk>, pool: seq<Chunk>)
    ensures KeepShared(a + b, pool) == KeepShared(a, pool) + KeepShared(b, pool)
  {
    if a == [] {
      assert a + b == b;
    } else {
      assert (a + b)[0] == a[0];
      assert (a + b)[1..] == a[1..] + b;
      KeepSharedConcat(a[1..], b, pool);
    }
  }

  /** The identity filter keeps every repetition of a shared chunk and drops every other chunk. */
  lemma {:induction false} KeepSharedMultiplicity(chunks: seq<Chunk>, pool: seq<Chunk>, c: Chunk)
    ensures multiset(KeepShared(chunks, pool))[c] == if Among(c, pool) then multiset(chunks)[c] else 0
  {
    if chunks != [] {
      KeepSharedMultiplicity(chunks[1..], pool, c);
      assert chunks == [chunks[0]] + chunks[1..];
    }
  }

  /** The first candidate of `names`, scanning once with filter and matcher together. */
  function FirstCandidate(names: seq<string>, f: FileFilter, m: FileMatcher): Option<string> {
    if names == [] then None
    else if Candidate(f, m, names[0]) then Some(names[0])
    else FirstCandidate(names[1..], f, m)
  }

  /** `k` is the position of the first candidate of `names`. */
  predicate FirstCandidateAt(names: seq<string>, f: FileFilter, m: FileMatcher, k: int) {
    0 <= k < |names| && Candidate(f, m, names[k]) && forall j :: 0 <= j < k ==> !Candidate(f, m, names[j])
  }

  /** Filtering first and matching afterwards finds the same name as one combined scan. */
  lemma {:induction false} FilterThenMatch(names: seq<string>, f: FileFilter, m: FileMatcher)
    ensures FirstMatch(FilterNames(names, f), m) == FirstCandidate(names, f, m)
  {
    if names != [] {
      var tail := names[1..];
      FilterThenMatch(tail, f, m);
      var rest := FilterNames(tail, f);
      if Accepts(f, names[0]) {
        var filtered := [names[0]] + rest;
        assert FilterNames(names, f) == filtered;
        assert filtered[0] == names[0] && filtered[1..] == rest;
        assert FirstMatch(filtered, m) == if Matches(m, names[0]) then Some(names[0]) else FirstMatch(rest, m);
      } else {
        assert FilterNames(names, f) == rest;
      }
    }
  }

  /** The combined scan returns the name at the first candidate position, and null iff there is none. */
  lemma {:induction false} FirstCandidateIsFirst(names: seq<string>, f: FileFilter, m: FileMatcher)
    ensures FirstCandidate(names, f, m).None? <==> forall k :: 0 <= k < |names| ==> !Candidate(f, m, names[k])
    ensures FirstCandidate(names, f, m).Some? ==>
      exists k :: FirstCandidateAt(names, f, m, k) && names[k] == FirstCandidate(names, f, m).value
  {
    if names == [] {
    } else if Candidate(f, m, names[0]) {
      assert FirstCandidateAt(names, f, m, 0);
    } else {
      var tail := names[1..];
      FirstCandidateIsFirst(tail, f, m);
      if FirstCandidate(tail, f, m).Some? {
        var k :| FirstCandidateAt(tail, f, m, k) && tail[k] == FirstCandidate(tail, f, m).value;
        forall j | 0 <= j < k + 1 ensures !Candidate(f, m, names[j]) {
          if j > 0 { assert names[j] == tail[j - 1]; }
        }
        assert names[k + 1] == tail[k];
        assert FirstCandidateAt(names, f, m, k + 1);
      } else {
        forall k | 0 <= k < |names| ensures !Candidate(f, m, names[k]) {
          if k > 0 { assert names[k] == tail[k - 1]; }
        }
      }
    }
  }

  /** The first accepted name of the filtered list is the first candidate of the unfiltered one. */
  lemma {:induction false} FindsFirstCandidate(names: seq<string>, f: FileFilter, m: FileMatcher)
    ensures FirstMatch(FilterNames(names, f), m).None? <==>
      forall k :: 0 <= k < |names| ==> !Candidate(f, m, names[k])
    ensures FirstMatch(FilterNames(names, f), m).Some? ==>
      exists k :: FirstCandidateAt(names, f, m, k) && names[k] == FirstMatch(FilterNames(names, f), m).value
  {
    FilterThenMatch(names, f, m);
    FirstCandidateIsFirst(names, f, m);
  }

  /** Without `chunks`, the result is the first asset name the matcher accepts, or null when none does. */
  lemma {:induction false} ResolveWithoutChunks(options: Options, htmlChunks: HtmlChunks, assets: seq<string>, entrypoints: Entrypoints)
    requires options.chunks.None?
    ensures Resolve(options, htmlChunks, assets, entrypoints).Returned?
    ensures var r := Resolve(options, htmlChunks, assets, entrypoints).value;
      var m := FileMatcherFor(options);
      (r.None? <==> forall k :: 0 <= k < |assets| ==> !Matches(m, assets[k])) &&
      (r.Some? ==> exists k :: 0 <= k < |assets| && assets[k] == r.value && Matches(m, assets[k]) &&
                               forall j :: 0 <= j < k ==> !Matches(m, assets[j]))
  {
    FindsFirstCandidate(assets, AllFiles, FileMatcherFor(options));
  }

  /** The selected chunks come from the named entry points, and also from the HTML plugin's when it names some. */
  lemma {:induction false} SelectedChunkOrigin(chunkNames: seq<string>, htmlChunks: HtmlChunks, entrypoints: Entrypoints, c: Chunk)
    requires ChunkSelection(chunkNames, htmlChunks, entrypoints).Returned?
    requires c in ChunkSelection(chunkNames, htmlChunks, entrypoints).value
    ensures exists i :: 0 <= i < |chunkNames| && chunkNames[i] in entrypoints && c in entrypoints[chunkNames[i]]
    ensures htmlChunks.Names? ==>
      exists i, d :: 0 <= i < |htmlChunks.names| && htmlChunks.names[i] in entrypoints &&
                     d in entrypoints[htmlChunks.names[i]] && d.id == c.id
  {
    EntrypointChunksMembers(chunkNames, entrypoints, c);
    if htmlChunks.Names? {
      var names := htmlChunks.names;
      HtmlEntrypointChunksOutcome(names, entrypoints);
      var pool := HtmlEntrypointChunks(names, entrypoints).value;
      var d :| d in pool && d.id == c.id;
      EntrypointChunksMembers(names, entrypoints, d);
    }
  }

  /** The index of the first name without an entry point. */
  function FirstMissing(names: seq<string>, entrypoints: Entrypoints): (j: nat)
    requires exists k :: 0 <= k < |names| && names[k] !in entrypoints
    ensures j < |names| && names[j] !in entrypoints && forall k :: 0 <= k < j ==> names[k] in entrypoints
  {
    if names[0] !in entrypoints then 0
    else
      assert exists k :: 0 <= k < |names[1..]| && names[1..][k] !in entrypoints by {
        var k :| 0 <= k < |names| && names[k] !in entrypoints;
        assert names[1..][k - 1] == names[k];
      }
      1 + FirstMissing(names[1..], entrypoints)
  }

  /** `findCssFile` throws exactly when `chunks` is set and the HTML plugin's chunk list is unusable. */
  lemma {:induction false} ResolveThrowsIff(options: Options, htmlChunks: HtmlChunks, assets: seq<string>, entrypoints: Entrypoints)
    ensures Resolve(options, htmlChunks, assets, entrypoints).Threw? <==>
      options.chunks.Some? &&
      (htmlChunks.NotAList? ||
       (htmlChunks.Names? && exists k :: 0 <= k < |htmlChunks.names| && htmlChunks.names[k] !in entrypoints))
  {
    if htmlChunks.Names? {
      var names := htmlChunks.names;
      HtmlEntrypointChunksOutcome(names, entrypoints);
      if exists k :: 0 <= k < |names| && names[k] !in entrypoints {
        var j := FirstMissing(names, entrypoints);
        assert HtmlEntrypointChunks(names, entrypoints) == Threw(UndefinedEntrypoint(names[j]));
      }
    }
  }

  /** A non-null result is an asset the matcher accepts, inside the selected chunks when `chunks` is set. */
  lemma {:induction false} ResolvedNameIsCandidate(options: Options, htmlChunks: HtmlChunks, assets: seq<string>,
                                entrypoints: Entrypoints, name: string)
    requires Resolve(options, htmlChunks, assets, entrypoints) == Returned(Some(name))
    ensures name in assets && Matches(FileMatcherFor(options), name)
    ensures options.chunks.Some? ==>
      ChunkSelection(options.chunks.value, htmlChunks, entrypoints).Returned? &&
      exists c :: c in ChunkSelection(options.chunks.value, htmlChunks, entrypoints).value && name in c.files
  {
    var m := FileMatcherFor(options);
    var f := if options.chunks.Some? then ChunkFilter(options.chunks.value, htmlChunks, entrypoints).value
             else AllFiles;
    FindsFirstCandidate(assets, f, m);
  }

  /** An empty chunk selection gives null, whatever the assets are. */
  lemma {:induction false} EmptySelectionYieldsNull(options: Options, htmlChunks: HtmlChunks, assets: seq<string>, entrypoints: Entrypoints)
    requires options.chunks.Some?
    requires ChunkSelection(options.chunks.value, htmlChunks, entrypoints) == Returned([])
    ensures Resolve(options, htmlChunks, assets, entrypoints) == Returned(None)
  {
  }
}
