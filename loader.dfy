/** The loader itself, in the form the source has: the parsed document's
    descriptors are objects whose `uri` is assigned in place, and the build
    host is an object that records the warnings, module imports and emitted
    files it is asked for. `Promise.all` over the asset tasks is run as its
    two halves: first every task up to its `await`, in array order, then every
    task's continuation, in array order (one of the orders the host may
    complete them in). */
module Loader {
  import opened Values
  import Json
  import PosixPath
  import opened Rewrite
  import RewriteProperties

  /** A buffer or image descriptor object of the parsed document. */
  class Descriptor {
    var uri: Option<string>
    var rest: seq<(string, Json.Value)>

    constructor (uri: Option<string>, rest: seq<(string, Json.Value)>)
      ensures this.uri == uri && this.rest == rest
    {
      this.uri := uri;
      this.rest := rest;
    }
  }

  /** The parsed document: its `buffers` and `images` arrays of descriptor objects. */
  datatype Document = Document(buffers: Option<seq<Descriptor>>, images: Option<seq<Descriptor>>,
                               rest: seq<(string, Json.Value)>)

  function Assets(d: Document): seq<Descriptor>
  {
    d.buffers.GetOr([]) + d.images.GetOr([])
  }

  /** JSON.parse never shares an object between two places. */
  ghost predicate Distinct(ds: seq<Descriptor>)
  {
    forall i, j :: 0 <= i < j < |ds| ==> ds[i] != ds[j]
  }

  function ParsedAssets(parsed: Result<Document, string>): set<Descriptor>
  {
    if parsed.Ok? then set x | x in Assets(parsed.value) else {}
  }

  function ViewAll(ds: seq<Descriptor>): (r: seq<Asset>)
    reads set x | x in ds
    ensures |r| == |ds|
  {
    seq(|ds|, i requires 0 <= i < |ds| reads ds => Asset(ds[i].uri, ds[i].rest))
  }

  /** The document's current value. */
  function View(d: Document): Gltf
    reads set x | x in Assets(d)
  {
    Gltf(if d.buffers.Some? then Some(ViewAll(d.buffers.value)) else None,
         if d.images.Some? then Some(ViewAll(d.images.value)) else None,
         d.rest)
  }

  function ViewParsed(parsed: Result<Document, string>): Result<Gltf, string>
    reads ParsedAssets(parsed)
  {
    if parsed.Ok? then Ok(View(parsed.value)) else Err(parsed.error)
  }

  lemma ViewOfAssets(d: Document)
    ensures ViewAll(Assets(d)) == Candidates(View(d))
  {
    var a, c := ViewAll(Assets(d)), Candidates(View(d));
    var nb := |d.buffers.GetOr([])|;
    assert |a| == |c|;
    forall i | 0 <= i < |a| ensures a[i] == c[i] {
      if i < nb {
        assert Assets(d)[i] == d.buffers.value[i];
      } else {
        assert Assets(d)[i] == d.images.value[i - nb];
      }
    }
  }

  /** Two documents with the same arrays of the same lengths and the same
      other members are equal when their candidates are. */
  lemma CandidatesDetermine(g1: Gltf, g2: Gltf)
    requires g1.rest == g2.rest
    requires g1.buffers.Some? == g2.buffers.Some? && g1.images.Some? == g2.images.Some?
    requires |g1.buffers.GetOr([])| == |g2.buffers.GetOr([])|
    requires Candidates(g1) == Candidates(g2)
    ensures g1 == g2
  {
    var nb := |g1.buffers.GetOr([])|;
    assert g1.buffers.GetOr([]) == Candidates(g1)[..nb];
    assert g2.buffers.GetOr([]) == Candidates(g2)[..nb];
    assert g1.images.GetOr([]) == Candidates(g1)[nb..];
    assert g2.images.GetOr([]) == Candidates(g2)[nb..];
  }

  /** The build host as the loader sees it: `importModule` answers from a
      fixed resolver, and every call is recorded. */
  class Host {
    const importModule: string -> Result<string, string>
    ghost var warnings: seq<string>
    ghost var requests: seq<string>
    ghost var emitted: seq<(string, string)>

    constructor (importModule: string -> Result<string, string>)
      ensures this.importModule == importModule
      ensures warnings == [] && requests == [] && emitted == []
    {
      this.importModule := importModule;
      warnings, requests, emitted := [], [], [];
    }

    /** `this.emitWarning(new Error(message))` */
    method EmitWarning(message: string)
      modifies this
      ensures warnings == old(warnings) + [message]
      ensures requests == old(requests) && emitted == old(emitted)
    {
      warnings := warnings + [message];
    }

    /** `await this.importModule(request)` */
    method ImportModule(request: string) returns (r: Result<string, string>)
      modifies this
      ensures r == importModule(request)
      ensures requests == old(requests) + [request]
      ensures warnings == old(warnings) && emitted == old(emitted)
    {
      requests := requests + [request];
      r := importModule(request);
    }

    /** `this.emitFile(name, content)` */
    method EmitFile(name: string, content: string)
      modifies this
      ensures emitted == old(emitted) + [(name, content)]
      ensures warnings == old(warnings) && requests == old(requests)
    {
      emitted := emitted + [(name, content)];
    }
  }

  /** After every resolved descriptor got its new `uri`, the document's value
      is the rewritten one. */
  lemma ViewAfterRewrite(d: Document, g0: Gltf, lib: Library, s: Settings,
                         importModule: string -> Result<string, string>)
    requires g0.rest == d.rest
    requires g0.buffers.Some? == d.buffers.Some? && g0.images.Some? == d.images.Some?
    requires |g0.buffers.GetOr([])| == |d.buffers.GetOr([])|
    requires ViewAll(Assets(d)) == RewriteAll(lib, s, importModule, Candidates(g0))
    ensures View(d) == RewriteDoc(lib, s, importModule, g0)
  {
    ViewOfAssets(d);
    RewriteProperties.CandidatesOfRewrite(lib, s, importModule, g0);
    RewriteProperties.RewriteChangesOnlyUris(lib, s, importModule, g0);
    CandidatesDetermine(View(d), RewriteDoc(lib, s, importModule, g0));
  }

  /** One asset's task up to its `await`: skip a non-request, warn about a
      data URI, or ask the host to import the asset through the pass-through
      loader. */
  method StartTask(lib: Library, env: Env, context: string, asset: Descriptor, host: Host,
                   ghost s: Settings) returns (task: Task)
    requires s.context == context
    requires s.assetLoaderPath == PosixPath.RelativePath(PosixPath.Resolve(env.resourceDir), env.assetLoaderFile)
    modifies host
    ensures task == TaskFor(lib, s, host.importModule, asset.uri)
    ensures host.warnings == old(host.warnings) + (if task.Warned? then [DataUriWarning] else [])
    ensures host.requests == old(host.requests) + (if task.Awaiting? then [task.request] else [])
    ensures host.emitted == old(host.emitted)
  {
    if !lib.isUrlRequest(asset.uri) {
      return Skipped;
    }
    if IsDataUriValue(asset.uri) {
      host.EmitWarning(DataUriWarning);
      return Warned;
    }
    var request := lib.urlToRequest(asset.uri, context);
    var assetLoaderPath := PosixPath.RelativePath(PosixPath.Resolve(env.resourceDir), env.assetLoaderFile);
    var result := host.ImportModule(ImportRequest(assetLoaderPath, request));
    task := Awaiting(ImportRequest(assetLoaderPath, request), result);
  }

  /** The continuation of a task whose import succeeded: the new `uri`. */
  method FinishTask(asset: Descriptor, result: string, inline: bool, baseUrl: seq<string>,
                    publicPath: string, ghost s: Settings)
    requires s.inline == inline && s.baseUrl == baseUrl && s.publicPath == publicPath
    modifies asset
    ensures asset.uri == Some(NewUri(s, result))
    ensures asset.rest == old(asset.rest)
  {
    if inline {
      asset.uri := Some(result);
    } else {
      asset.uri := Some(PosixPath.RelativePath(baseUrl, Drop(result, |publicPath|)));
    }
  }

  /** The first half of `Promise.all(assets.map(...))`: every task runs, in
      array order, up to its `await`. */
  method StartAll(lib: Library, env: Env, context: string, assets: seq<Descriptor>, host: Host,
                  ghost s: Settings, ghost before: seq<Asset>) returns (tasks: seq<Task>)
    requires s.context == context
    requires s.assetLoaderPath == PosixPath.RelativePath(PosixPath.Resolve(env.resourceDir), env.assetLoaderFile)
    requires |before| == |assets| && forall i :: 0 <= i < |assets| ==> before[i].uri == assets[i].uri
    modifies host
    ensures tasks == Plan(lib, s, host.importModule, before)
    ensures host.warnings == old(host.warnings) + Warnings(tasks)
    ensures host.requests == old(host.requests) + Requests(tasks)
    ensures host.emitted == old(host.emitted)
  {
    tasks := [];
    var k := 0;
    while k < |assets|
      invariant 0 <= k <= |assets|
      invariant tasks == Plan(lib, s, host.importModule, before[..k])
      invariant host.warnings == old(host.warnings) + Warnings(tasks)
      invariant host.requests == old(host.requests) + Requests(tasks)
      invariant host.emitted == old(host.emitted)
    {
      PlanGrows(lib, s, host.importModule, before, k);
      tasks := StartNext(lib, env, context, assets[k], host, s, tasks, old(host.warnings), old(host.requests));
      k := k + 1;
    }
    assert before[..k] == before;
  }

  lemma PlanGrows(lib: Library, s: Settings, importModule: string -> Result<string, string>,
                  assets: seq<Asset>, k: nat)
    requires k < |assets|
    ensures Plan(lib, s, importModule, assets[..k + 1]) ==
            Plan(lib, s, importModule, assets[..k]) + [TaskFor(lib, s, importModule, assets[k].uri)]
  {
  }

  /** One more step of the synchronous half, with the logs kept as
      functions of all the tasks started so far. */
  method StartNext(lib: Library, env: Env, context: string, asset: Descriptor, host: Host,
                   ghost s: Settings, tasks: seq<Task>, ghost w0: seq<string>, ghost r0: seq<string>)
    returns (grown: seq<Task>)
    requires s.context == context
    requires s.assetLoaderPath == PosixPath.RelativePath(PosixPath.Resolve(env.resourceDir), env.assetLoaderFile)
    requires host.warnings == w0 + Warnings(tasks)
    requires host.requests == r0 + Requests(tasks)
    modifies host
    ensures grown == tasks + [TaskFor(lib, s, host.importModule, asset.uri)]
    ensures host.warnings == w0 + Warnings(grown)
    ensures host.requests == r0 + Requests(grown)
    ensures host.emitted == old(host.emitted)
  {
    var task := StartTask(lib, env, context, asset, host, s);
    TasksGrow(tasks, task, w0, r0);
    grown := tasks + [task];
  }

  /** The logs after one more task, given what they held before the first. */
  lemma TasksGrow(tasks: seq<Task>, task: Task, w0: seq<string>, r0: seq<string>)
    ensures w0 + Warnings(tasks + [task]) == w0 + Warnings(tasks) + (if task.Warned? then [DataUriWarning] else [])
    ensures r0 + Requests(tasks + [task]) == r0 + Requests(tasks) + (if task.Awaiting? then [task.request] else [])
  {
    assert (tasks + [task])[..|tasks|] == tasks;
  }

  /** The descriptors after the continuations of the first `k` tasks: those
      have their rewritten `uri`, the others are as they were. */
  ghost predicate FinishedUpTo(lib: Library, s: Settings, importModule: string -> Result<string, string>,
                               assets: seq<Descriptor>, before: seq<Asset>, k: nat)
    reads assets
  {
    && |before| == |assets| && k <= |assets|
    && (forall i :: 0 <= i < |assets| ==> assets[i].rest == before[i].rest)
    && (forall i :: 0 <= i < |assets| ==>
          assets[i].uri == (if i < k then RewriteAsset(lib, s, importModule, before[i]).uri else before[i].uri))
  }

  /** The second half: every task's continuation, in array order. It stops at
      the first failed import, as `Promise.all` rejects. */
  method FinishAll(lib: Library, assets: seq<Descriptor>, tasks: seq<Task>, inline: bool,
                   baseUrl: seq<string>, publicPath: string, ghost s: Settings,
                   ghost importModule: string -> Result<string, string>, ghost before: seq<Asset>)
    returns (imports: seq<string>, failure: Option<string>)
    requires s.inline == inline && s.baseUrl == baseUrl && s.publicPath == publicPath
    requires Distinct(assets) && |before| == |assets|
    requires forall i :: 0 <= i < |assets| ==> assets[i].uri == before[i].uri && assets[i].rest == before[i].rest
    requires tasks == Plan(lib, s, importModule, before)
    modifies set x | x in assets
    ensures failure == FirstError(tasks)
    ensures failure.None? ==> imports == Requests(tasks)
    ensures failure.None? ==> ViewAll(assets) == RewriteAll(lib, s, importModule, before)
    ensures forall i :: 0 <= i < |assets| ==> assets[i].rest == before[i].rest
  {
    imports := [];
    var k := 0;
    while k < |assets|
      invariant 0 <= k <= |assets|
      invariant imports == Requests(tasks[..k])
      invariant FirstError(tasks[..k]) == None
      invariant FinishedUpTo(lib, s, importModule, assets, before, k)
    {
      PrefixGrows(tasks, k);
      if tasks[k].Awaiting? && tasks[k].result.Err? {
        RewriteProperties.FirstErrorOfPrefix(tasks, k + 1);
        return imports, Some(tasks[k].result.error);
      }
      imports := FinishNext(lib, assets, tasks, k, imports, inline, baseUrl, publicPath, s, importModule, before);
      k := k + 1;
    }
    assert tasks[..k] == tasks;
    Finished(lib, s, importModule, assets, before);
    failure := None;
  }

  /** Once every continuation ran, the descriptors hold the rewritten values. */
  lemma Finished(lib: Library, s: Settings, importModule: string -> Result<string, string>,
                 assets: seq<Descriptor>, before: seq<Asset>)
    requires FinishedUpTo(lib, s, importModule, assets, before, |assets|)
    ensures ViewAll(assets) == RewriteAll(lib, s, importModule, before)
  {
  }

  /** The continuation of task `k`, whose import did not fail. */
  method FinishNext(lib: Library, assets: seq<Descriptor>, tasks: seq<Task>, k: nat, imports: seq<string>,
                    inline: bool, baseUrl: seq<string>, publicPath: string, ghost s: Settings,
                    ghost importModule: string -> Result<string, string>, ghost before: seq<Asset>)
    returns (grown: seq<string>)
    requires s.inline == inline && s.baseUrl == baseUrl && s.publicPath == publicPath
    requires Distinct(assets) && k < |assets|
    requires FinishedUpTo(lib, s, importModule, assets, before, k)
    requires tasks == Plan(lib, s, importModule, before)
    requires !(tasks[k].Awaiting? && tasks[k].result.Err?)
    modifies assets[k]
    ensures grown == imports + (if tasks[k].Awaiting? then [tasks[k].request] else [])
    ensures FinishedUpTo(lib, s, importModule, assets, before, k + 1)
  {
    RewriteStep(lib, s, importModule, before[k]);
    assert tasks[k] == TaskFor(lib, s, importModule, before[k].uri);
    grown := imports;
    if tasks[k].Awaiting? {
      grown := imports + [tasks[k].request];
      FinishTask(assets[k], tasks[k].result.value, inline, baseUrl, publicPath, s);
    }
    forall i | 0 <= i < |assets| && i != k
      ensures assets[i].uri == old(assets[i].uri) && assets[i].rest == old(assets[i].rest)
    {
      assert assets[i] != assets[k];
    }
  }

  /** One more task's worth of requests and errors. */
  lemma PrefixGrows(t: seq<Task>, k: nat)
    requires k < |t|
    ensures Requests(t[..k + 1]) == Requests(t[..k]) + (if t[k].Awaiting? then [t[k].request] else [])
    ensures FirstError(t[..k]) == None ==>
      FirstError(t[..k + 1]) == (if t[k].Awaiting? && t[k].result.Err? then Some(t[k].result.error) else None)
  {
    assert t[..k + 1][..k] == t[..k];
  }

  /** What the continuation of an asset's task makes of its `uri`. */
  lemma RewriteStep(lib: Library, s: Settings, importModule: string -> Result<string, string>, a: Asset)
    ensures var task := TaskFor(lib, s, importModule, a.uri);
      RewriteAsset(lib, s, importModule, a).uri ==
        if task.Awaiting? && task.result.Ok? then Some(NewUri(s, task.result.value)) else a.uri
  {
  }

  /** The end of a run whose imports all succeeded: serialise the rewritten
      document, emit it unless inlining, and build the module source. */
  method Generate(lib: Library, data: Document, imports: seq<string>, inline: bool, url: string,
                  host: Host, ghost s: Settings) returns (out: Outcome)
    requires s.inline == inline && s.url == url
    modifies host
    ensures out == Loaded(JoinLines(Lines(s, imports, lib.stringify(View(data)))))
    ensures host.emitted == old(host.emitted) + (if inline then [] else [(url, lib.stringify(View(data)))])
    ensures host.warnings == old(host.warnings) && host.requests == old(host.requests)
  {
    var updatedContent := lib.stringify(View(data));
    if !inline {
      host.EmitFile(url, updatedContent);
    }
    var lines := seq(|imports|, i requires 0 <= i < |imports| => ImportLine(imports[i]));
    if inline {
      lines := lines + [InlineExportPrefix + updatedContent];
    } else {
      lines := lines + [PathExportPrefix + Json.Quote(url)];
    }
    out := Loaded(JoinLines(lines));
  }

  /** `await Promise.all(assets.map(...))`: both halves, one after the other. */
  method ResolveAll(lib: Library, env: Env, context: string, assets: seq<Descriptor>, inline: bool,
                    baseUrl: seq<string>, publicPath: string, host: Host, ghost s: Settings,
                    ghost before: seq<Asset>)
    returns (imports: seq<string>, failure: Option<string>)
    requires s.context == context && s.inline == inline && s.baseUrl == baseUrl && s.publicPath == publicPath
    requires s.assetLoaderPath == PosixPath.RelativePath(PosixPath.Resolve(env.resourceDir), env.assetLoaderFile)
    requires Distinct(assets) && ViewAll(assets) == before
    modifies host, set x | x in assets
    ensures var t := Plan(lib, s, host.importModule, before);
      && failure == FirstError(t)
      && host.warnings == old(host.warnings) + Warnings(t)
      && host.requests == old(host.requests) + Requests(t)
      && host.emitted == old(host.emitted)
      && (failure.None? ==> imports == Requests(t) && ViewAll(assets) == RewriteAll(lib, s, host.importModule, before))
    ensures forall x | x in assets :: x.rest == old(x.rest)
  {
    assert forall i :: 0 <= i < |assets| ==> assets[i].uri == before[i].uri && assets[i].rest == before[i].rest;
    var tasks := StartAll(lib, env, context, assets, host, s, before);
    imports, failure := FinishAll(lib, assets, tasks, inline, baseUrl, publicPath, s, host.importModule, before);
    forall x | x in assets ensures x.rest == old(x.rest) {
      var i :| 0 <= i < |assets| && assets[i] == x;
    }
  }

  /** The loader once its settings are known: resolve every asset, then
      generate the module. */
  method Process(lib: Library, env: Env, data: Document, host: Host, s: Settings,
                 ghost g0: Gltf, ghost t: seq<Task>, ghost g1: Gltf, ghost run: Run) returns (out: Outcome)
    requires s.assetLoaderPath == PosixPath.RelativePath(PosixPath.Resolve(env.resourceDir), env.assetLoaderFile)
    requires Distinct(Assets(data)) && g0 == View(data)
    requires t == Plan(lib, s, host.importModule, Candidates(g0))
    requires g1 == RewriteDoc(lib, s, host.importModule, g0)
    requires run == Conclude(lib, s, t, g1)
    modifies host, set x | x in Assets(data)
    ensures && out == run.outcome
      && host.warnings == old(host.warnings) + run.warnings
      && host.requests == old(host.requests) + run.requests
      && host.emitted == old(host.emitted) + run.emitted
      && (run.doc.Some? ==> View(data) == run.doc.value)
    ensures forall x | x in Assets(data) :: x.rest == old(x.rest)
  {
    var assets := data.buffers.GetOr([]) + data.images.GetOr([]);
    ghost var before := ViewAll(assets);
    ViewOfAssets(data);
    var imports, failure := ResolveAll(lib, env, s.context, assets, s.inline, s.baseUrl, s.publicPath, host, s, before);
    if failure.Some? {
      return ResolveFailed(failure.value);
    }
    ViewAfterRewrite(data, g0, lib, s, host.importModule);
    out := Generate(lib, data, imports, s.inline, s.url, host, s);
  }

  /** A run on a parsed document concludes from its settings, its tasks and
      its rewritten document. */
  lemma LoadIsConclude(lib: Library, env: Env, options: Options, content: string, g: Gltf,
                       importModule: string -> Result<string, string>, s: Settings)
    requires s == Settle(lib, env, options, content)
    ensures Rewrite.Load(lib, env, options, content, Ok(g), importModule)
            == Conclude(lib, s, Plan(lib, s, importModule, Candidates(g)), RewriteDoc(lib, s, importModule, g))
  {
  }

  /** The loader once the content has parsed. */
  method LoadDocument(lib: Library, env: Env, options: Options, content: string,
                      data: Document, host: Host) returns (out: Outcome)
    requires Distinct(Assets(data))
    modifies host, set x | x in Assets(data)
    ensures var run := Rewrite.Load(lib, env, options, content, Ok(old(View(data))), host.importModule);
      && out == run.outcome
      && host.warnings == old(host.warnings) + run.warnings
      && host.requests == old(host.requests) + run.requests
      && host.emitted == old(host.emitted) + run.emitted
      && (run.doc.Some? ==> View(data) == run.doc.value)
    ensures forall x | x in Assets(data) :: x.rest == old(x.rest)
  {
    ghost var g0 := View(data);
    var s := Settle(lib, env, options, content);
    ghost var t := Plan(lib, s, host.importModule, Candidates(g0));
    ghost var g1 := RewriteDoc(lib, s, host.importModule, g0);
    ghost var run := Rewrite.Load(lib, env, options, content, Ok(g0), host.importModule);
    LoadIsConclude(lib, env, options, content, g0, host.importModule, s);
    out := Process(lib, env, data, host, s, g0, t, g1, run);
  }

  /** The loader: parses nothing itself but fails on content that did not
      parse; otherwise rewrites the `uri` of each eligible descriptor in place
      and returns the generated module source, or fails. It does what
      `Rewrite.Load` describes, to the document and to the host. */
  method LoadGltf(lib: Library, env: Env, options: Options, content: string,
                  parsed: Result<Document, string>, host: Host) returns (out: Outcome)
    requires parsed.Ok? ==> Distinct(Assets(parsed.value))
    modifies host, ParsedAssets(parsed)
    ensures var run := Rewrite.Load(lib, env, options, content, old(ViewParsed(parsed)), host.importModule);
      && host.warnings == old(host.warnings) + run.warnings
      && host.requests == old(host.requests) + run.requests
      && host.emitted == old(host.emitted) + run.emitted
      && (run.doc.Some? ==> parsed.Ok? && View(parsed.value) == run.doc.value)
      && out == run.outcome
    ensures forall x | x in ParsedAssets(parsed) :: x.rest == old(x.rest)
  {
    if parsed.Err? {
      out := ParseFailed(ParseErrorPrefix + parsed.error);
      return;
    }
    out := LoadDocument(lib, env, options, content, parsed.value, host);
  }
}
