/** Properties of one loader run, proved about the functions of `Rewrite`. */
module RewriteProperties {
  import opened Values
  import Json
  import PosixPath
  import opened Rewrite

  predicate StartsWith(s: string, prefix: string)
  {
    |prefix| <= |s| && s[..|prefix|] == prefix
  }

  /** Malformed JSON: the run fails with "Invalid glTF file: " and the parse
      error, and the host sees no warning, no import and no emitted file. */
  lemma ParseFailureIsInert(lib: Library, env: Env, options: Options, content: string,
                            error: string, importModule: string -> Result<string, string>)
    ensures var run := Load(lib, env, options, content, Err(error), importModule);
      && run.outcome == ParseFailed(ParseErrorPrefix + error)
      && StartsWith(run.outcome.message, "Invalid glTF file: ")
      && run.warnings == [] && run.requests == [] && run.emitted == [] && run.doc == None
  {
  }

  /** A `uri` the URL-request test rejects, or a data URI, is left as it is
      and adds no import; a data URI adds a warning. */
  lemma SkippedAssetsKeepTheirUri(lib: Library, s: Settings,
                                  importModule: string -> Result<string, string>, a: Asset)
    requires !lib.isUrlRequest(a.uri) || IsDataUriValue(a.uri)
    ensures RewriteAsset(lib, s, importModule, a) == a
    ensures !TaskFor(lib, s, importModule, a.uri).Awaiting?
    ensures TaskFor(lib, s, importModule, a.uri).Warned? <==> lib.isUrlRequest(a.uri)
  {
  }

  /** The candidates of the rewritten document are the rewritten candidates. */
  lemma CandidatesOfRewrite(lib: Library, s: Settings,
                            importModule: string -> Result<string, string>, g: Gltf)
    ensures Candidates(RewriteDoc(lib, s, importModule, g)) ==
            RewriteAll(lib, s, importModule, Candidates(g))
  {
    var r := RewriteDoc(lib, s, importModule, g);
    var c, c' := Candidates(g), Candidates(r);
    var nb := |g.buffers.GetOr([])|;
    assert |c'| == |c|;
    forall i | 0 <= i < |c| ensures c'[i] == RewriteAsset(lib, s, importModule, c[i]) {
      if i < nb {
        assert c[i] == g.buffers.value[i];
      } else {
        assert c[i] == g.images.value[i - nb];
      }
    }
  }

  /** Rewriting keeps the document's shape: the same arrays, the same number
      of descriptors in the same order, every member but `uri` unchanged, and
      a `uri` changes only for a descriptor whose import succeeded. */
  lemma RewriteChangesOnlyUris(lib: Library, s: Settings,
                               importModule: string -> Result<string, string>, g: Gltf)
    ensures var r := RewriteDoc(lib, s, importModule, g);
      && r.rest == g.rest
      && r.buffers.Some? == g.buffers.Some? && r.images.Some? == g.images.Some?
      && |r.buffers.GetOr([])| == |g.buffers.GetOr([])|
      && |r.images.GetOr([])| == |g.images.GetOr([])|
      && |Candidates(r)| == |Candidates(g)|
      && forall i :: 0 <= i < |Candidates(g)| ==>
           && Candidates(r)[i].rest == Candidates(g)[i].rest
           && (Candidates(r)[i].uri != Candidates(g)[i].uri ==>
                 var t := TaskFor(lib, s, importModule, Candidates(g)[i].uri);
                 t.Awaiting? && t.result.Ok?
                 && Candidates(r)[i].uri == Some(NewUri(s, t.result.value)))
  {
    CandidatesOfRewrite(lib, s, importModule, g);
  }

  /** With no buffers and no images the document is left as it is. */
  lemma NoCandidatesNoChange(lib: Library, s: Settings,
                             importModule: string -> Result<string, string>, g: Gltf)
    requires Candidates(g) == []
    ensures RewriteDoc(lib, s, importModule, g) == g
    ensures Requests(Plan(lib, s, importModule, Candidates(g))) == []
  {
    var r := RewriteDoc(lib, s, importModule, g);
    assert g.buffers.Some? ==> g.buffers.value == [];
    assert g.images.Some? ==> g.images.value == [];
    assert r.buffers == g.buffers;
    assert r.images == g.images;
  }

  function AwaitingAt(t: seq<Task>): set<nat>
  {
    set i: nat | i < |t| && t[i].Awaiting?
  }

  function WarnedAt(t: seq<Task>): set<nat>
  {
    set i: nat | i < |t| && t[i].Warned?
  }

  lemma {:induction false} AwaitingAtGrows(t: seq<Task>)
    requires t != []
    ensures AwaitingAt(t) == AwaitingAt(t[..|t| - 1]) + (if t[|t| - 1].Awaiting? then {|t| - 1} else {})
    ensures WarnedAt(t) == WarnedAt(t[..|t| - 1]) + (if t[|t| - 1].Warned? then {|t| - 1} else {})
  {
  }

  /** There is exactly one import per awaiting task: as many requests as
      awaiting tasks, each task's request among them and each request some
      awaiting task's. */
  lemma OneImportPerResolvedAsset(t: seq<Task>)
    ensures |Requests(t)| == |AwaitingAt(t)|
    ensures forall i :: 0 <= i < |t| && t[i].Awaiting? ==> t[i].request in Requests(t)
    ensures forall r :: r in Requests(t) ==> exists i :: 0 <= i < |t| && t[i].Awaiting? && t[i].request == r
  {
    RequestCount(t);
    forall i | 0 <= i < |t| && t[i].Awaiting? ensures t[i].request in Requests(t) {
      RequestOfTask(t, i);
    }
    forall r | r in Requests(t) ensures exists i :: 0 <= i < |t| && t[i].Awaiting? && t[i].request == r {
      TaskOfRequest(t, r);
    }
  }

  lemma {:induction false} RequestCount(t: seq<Task>)
    ensures |Requests(t)| == |AwaitingAt(t)|
    decreases |t|
  {
    if t != [] {
      var n := |t| - 1;
      RequestCount(t[..n]);
      AwaitingAtGrows(t);
      assert n !in AwaitingAt(t[..n]);
    }
  }

  lemma {:induction false} RequestOfTask(t: seq<Task>, i: nat)
    requires i < |t| && t[i].Awaiting?
    ensures t[i].request in Requests(t)
    decreases |t|
  {
    var n := |t| - 1;
    if i < n {
      RequestOfTask(t[..n], i);
      assert t[..n][i] == t[i];
    }
  }

  lemma {:induction false} TaskOfRequest(t: seq<Task>, r: string)
    requires r in Requests(t)
    ensures exists i :: 0 <= i < |t| && t[i].Awaiting? && t[i].request == r
    decreases |t|
  {
    var n := |t| - 1;
    if r in Requests(t[..n]) {
      TaskOfRequest(t[..n], r);
      var i :| 0 <= i < n && t[..n][i].Awaiting? && t[..n][i].request == r;
      assert t[i] == t[..n][i];
    } else {
      assert t[n].Awaiting? && t[n].request == r;
    }
  }

  /** There is exactly one warning per task that met a data URI. */
  lemma {:induction false} OneWarningPerDataUri(t: seq<Task>)
    ensures |Warnings(t)| == |WarnedAt(t)|
    ensures forall w :: w in Warnings(t) ==> w == DataUriWarning
    decreases |t|
  {
    if t != [] {
      var n := |t| - 1;
      OneWarningPerDataUri(t[..n]);
      AwaitingAtGrows(t);
      assert n !in WarnedAt(t[..n]);
    }
  }

  /** An error found in a prefix of the tasks is the first error of all of them. */
  lemma {:induction false} FirstErrorOfPrefix(t: seq<Task>, k: nat)
    requires k <= |t| && FirstError(t[..k]).Some?
    ensures FirstError(t) == FirstError(t[..k])
    decreases |t| - k
  {
    if k < |t| {
      assert t[..k + 1][..k] == t[..k];
      FirstErrorOfPrefix(t, k + 1);
    } else {
      assert t[..k] == t;
    }
  }

  /** The run fails exactly when some import fails. */
  lemma {:induction false} NoErrorIffAllImportsSucceed(t: seq<Task>)
    ensures FirstError(t) == None <==> forall i :: 0 <= i < |t| && t[i].Awaiting? ==> t[i].result.Ok?
    decreases |t|
  {
    if t != [] {
      var n := |t| - 1;
      NoErrorIffAllImportsSucceed(t[..n]);
      if FirstError(t[..n]) == None {
        forall i | 0 <= i < n ensures t[..n][i] == t[i] { }
      } else {
        var i :| 0 <= i < n && t[..n][i].Awaiting? && !t[..n][i].result.Ok?;
        assert t[i] == t[..n][i];
      }
    }
  }

  /** Each import line is `import "<request>";` with the request read back
      intact from the quoted text, and it fits on one line. */
  lemma ImportLineReadsBack(request: string)
    ensures var line := ImportLine(request);
      && StartsWith(line, "import ") && line[|line| - 1] == ';'
      && Json.Unquote(line[7..|line| - 1]) == Some(request)
      && '\n' !in line
  {
    var line := ImportLine(request);
    var q := Json.Quote(request);
    assert line[7..|line| - 1] == q;
    Json.QuoteRoundTrip(request);
    Json.QuoteIsOneLine(request);
  }

  /** The generated module is the import lines, one per request in order,
      followed by exactly one `export default` line: inline, the serialised
      document; otherwise the public path plus the quoted output name. */
  lemma LinesShape(s: Settings, requests: seq<string>, updated: string)
    ensures var lines := Lines(s, requests, updated);
      && |lines| == |requests| + 1
      && (forall i :: 0 <= i < |requests| ==>
            lines[i] == ImportLine(requests[i]) && StartsWith(lines[i], "import "))
      && StartsWith(lines[|requests|], InlineExportPrefix)
      && (s.inline ==> lines[|requests|] == InlineExportPrefix + updated)
      && (!s.inline ==> lines[|requests|] == PathExportPrefix + Json.Quote(s.url))
  {
    var lines := Lines(s, requests, updated);
    forall i | 0 <= i < |requests| ensures StartsWith(lines[i], "import ") {
      ImportLineReadsBack(requests[i]);
    }
  }

  /** `lines.join('\n')` of lines that hold no newline has one newline fewer
      than there are lines, so it splits back into exactly that many lines. */
  lemma {:induction false} JoinLinesNewlines(lines: seq<string>)
    requires |lines| >= 1
    requires forall i :: 0 <= i < |lines| ==> '\n' !in lines[i]
    ensures multiset(JoinLines(lines))['\n'] == |lines| - 1
    decreases |lines|
  {
    if |lines| > 1 {
      JoinLinesNewlines(lines[1..]);
      assert multiset(lines[0])['\n'] == 0;
      assert JoinLines(lines) == lines[0] + "\n" + JoinLines(lines[1..]);
    } else {
      assert multiset(lines[0])['\n'] == 0;
    }
  }

  lemma ExportPrefixesAreOneLine()
    ensures '\n' !in InlineExportPrefix && '\n' !in PathExportPrefix
  {
  }

  /** The export line holds no newline, unless the inlined document does. */
  lemma ExportLineIsOneLine(s: Settings, updated: string)
    requires s.inline ==> '\n' !in updated
    ensures '\n' !in ExportLine(s, updated)
  {
    Json.QuoteIsOneLine(s.url);
    ExportPrefixesAreOneLine();
  }

  /** The generated source has one line per import plus the export line: its
      newlines are exactly the separators between them. Outside inline mode
      the export line never holds a newline; inline, it holds none when the
      serialised document holds none. */
  lemma SourceLineCount(s: Settings, requests: seq<string>, updated: string)
    requires s.inline ==> '\n' !in updated
    ensures multiset(JoinLines(Lines(s, requests, updated)))['\n'] == |requests|
  {
    var lines := Lines(s, requests, updated);
    var imports := ImportLines(requests);
    forall i | 0 <= i < |imports| ensures '\n' !in imports[i] {
      ImportLineReadsBack(requests[i]);
    }
    ExportLineIsOneLine(s, updated);
    assert lines == imports + [ExportLine(s, updated)];
    JoinLinesNewlines(lines);
  }

  /** A successful run returns the joined lines, with as many import lines
      as awaiting tasks. Outside inline mode the serialised rewritten
      document is emitted once, under the output name; inline, nothing is
      emitted. */
  lemma LoadedSource(lib: Library, env: Env, options: Options, content: string, g: Gltf,
                     importModule: string -> Result<string, string>)
    requires Load(lib, env, options, content, Ok(g), importModule).outcome.Loaded?
    ensures var run := Load(lib, env, options, content, Ok(g), importModule);
      var s := Settle(lib, env, options, content);
      var t := Plan(lib, s, importModule, Candidates(g));
      var updated := lib.stringify(RewriteDoc(lib, s, importModule, g));
      && run.outcome.source == JoinLines(Lines(s, Requests(t), updated))
      && |Requests(t)| == |AwaitingAt(t)|
      && (s.inline ==> run.emitted == [])
      && (!s.inline ==> run.emitted == [(s.url, updated)])
  {
    var s := Settle(lib, env, options, content);
    OneImportPerResolvedAsset(Plan(lib, s, importModule, Candidates(g)));
  }

  /** The output name comes from the original content and the options alone:
      whatever the imports resolve to, the emitted name is the same. */
  lemma OutputNameIgnoresImports(lib: Library, env: Env, options: Options, content: string,
                                 g: Gltf, im1: string -> Result<string, string>,
                                 im2: string -> Result<string, string>)
    requires !options.inline.GetOr(false)
    requires Load(lib, env, options, content, Ok(g), im1).outcome.Loaded?
    requires Load(lib, env, options, content, Ok(g), im2).outcome.Loaded?
    ensures var e1 := Load(lib, env, options, content, Ok(g), im1).emitted;
            var e2 := Load(lib, env, options, content, Ok(g), im2).emitted;
            |e1| == |e2| == 1 && e1[0].0 == e2[0].0 ==
              lib.interpolateName(options.name.GetOr("[contenthash].[ext]"),
                                  options.context.GetOr(env.resourceDir), content, options.regExp)
  {
  }

  /** Outside inline mode the new `uri`, taken from the output name's
      directory, leads to the resolved location less the public path. */
  lemma NewUriLeadsToAsset(s: Settings, result: string)
    requires !s.inline && PosixPath.IsNormal(s.baseUrl)
    ensures PosixPath.Walk(s.baseUrl, PosixPath.Split(NewUri(s, result)))
            == PosixPath.Resolve(Drop(result, |s.publicPath|))
  {
    PosixPath.RelativePathLeadsTo(s.baseUrl, Drop(result, |s.publicPath|));
  }

  /** The public path is removed by length only: the characters removed need
      not be the public path. */
  lemma StripIgnoresPrefixText(s: Settings, head: string, tail: string)
    requires !s.inline && |head| == |s.publicPath|
    ensures NewUri(s, head + tail) == PosixPath.RelativePath(s.baseUrl, tail)
  {
    assert (head + tail)[|head|..] == tail;
  }

  /** An asset emitted next to the document is referred to by its bare name
      (`assets/cube.<hash>.gltf` and `assets/cube.<hash>.png`). */
  lemma SameDirectoryUri(s: Settings, dir: string, name: string, asset: string)
    requires !s.inline && PosixPath.IsName(dir) && PosixPath.IsName(name) && PosixPath.IsName(asset)
    requires s.baseUrl == PosixPath.Dirname(dir + "/" + name)
    ensures NewUri(s, s.publicPath + (dir + "/" + asset)) == asset
  {
    StripIgnoresPrefixText(s, s.publicPath, dir + "/" + asset);
    PosixPath.SameDirectory(dir, name, asset);
  }

  /** An asset in a sibling directory is reached through `..`, whatever the
      public path (`shared/cube.<hash>.gltf` under `https://website.com/`
      and `https://website.com/assets/cube.<hash>.png`). */
  lemma SiblingDirectoryUri(s: Settings, dir: string, name: string, assetDir: string, asset: string)
    requires !s.inline && dir != assetDir
    requires PosixPath.IsName(dir) && PosixPath.IsName(name)
    requires PosixPath.IsName(assetDir) && PosixPath.IsName(asset)
    requires s.baseUrl == PosixPath.Dirname(dir + "/" + name)
    ensures NewUri(s, s.publicPath + (assetDir + "/" + asset)) == "../" + assetDir + "/" + asset
  {
    StripIgnoresPrefixText(s, s.publicPath, assetDir + "/" + asset);
    PosixPath.SiblingDirectory(dir, name, assetDir, asset);
  }

  /** A document named at the top level refers to an asset by its whole path. */
  lemma TopLevelUri(s: Settings, name: string, assetDir: string, asset: string)
    requires !s.inline && PosixPath.IsName(name) && PosixPath.IsName(assetDir) && PosixPath.IsName(asset)
    requires s.baseUrl == PosixPath.Dirname(name)
    ensures NewUri(s, s.publicPath + (assetDir + "/" + asset)) == assetDir + "/" + asset
  {
    StripIgnoresPrefixText(s, s.publicPath, assetDir + "/" + asset);
    PosixPath.FromTopLevel(name, assetDir, asset);
  }
}
