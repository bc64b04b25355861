/** What one run of the glTF loader does, as functions of its inputs: the
    classification of each `uri`, the candidate list, the rewritten document,
    the generated module source and the effects on the build host. The
    imperative loader in module `Loader` is proved to do exactly this. */
module Rewrite {
  import opened Values
  import Json
  import PosixPath

  /** A buffer or image descriptor: its `uri` member (absent: `None`) and
      every other member, which the loader never touches. */
  datatype Asset = Asset(uri: Option<string>, rest: seq<(string, Json.Value)>)

  /** A parsed glTF document. An absent or `null` `buffers`/`images` member is `None`. */
  datatype Gltf = Gltf(buffers: Option<seq<Asset>>, images: Option<seq<Asset>>,
                       rest: seq<(string, Json.Value)>)

  /** What the loader takes from `loader-utils` and from `JSON`, left abstract. */
  datatype Library = Library(
    isUrlRequest: Option<string> -> bool,
    urlToRequest: (Option<string>, string) -> string,
    /** template, context, content, regExp */
    interpolateName: (string, string, string, Option<string>) -> string,
    stringify: Gltf -> string)

  /** The loader's options, each possibly unset. */
  datatype Options = Options(context: Option<string>, name: Option<string>,
                             regExp: Option<string>, inline: Option<bool>)

  /** What the loader reads from the build host: `this.context`, the absolute
      path of the pass-through asset loader module, and the compilation's
      `output.publicPath`. */
  datatype Env = Env(resourceDir: string, assetLoaderFile: string, publicPath: Option<string>)

  /** The values the loader fixes before it looks at any asset. */
  datatype Settings = Settings(context: string, publicPath: string, inline: bool,
                               url: string, baseUrl: seq<string>, assetLoaderPath: string)

  /** The state of one asset's task when `Promise.all` joins: it returned
      early, it warned about a data URI, or it awaits `importModule(request)`. */
  datatype Task = Skipped | Warned | Awaiting(request: string, result: Result<string, string>)

  datatype Outcome = Loaded(source: string) | ParseFailed(message: string) | ResolveFailed(error: string)

  /** The outcome together with what the host saw. `doc` is the rewritten
      document when the run gets that far. */
  datatype Run = Run(outcome: Outcome, warnings: seq<string>, requests: seq<string>,
                     emitted: seq<(string, string)>, doc: Option<Gltf>)

  const DefaultName: string := "[contenthash].[ext]"
  const ParseErrorPrefix: string := "Invalid glTF file: "
  const DataUriWarning: string := "Usage of data URIs inside glTF files are discouraged"
  const InlineExportPrefix: string := "export default "
  const PathExportPrefix: string := InlineExportPrefix + "__webpack_public_path__ + "

  function LowerAscii(c: char): char
  {
    if 'A' <= c <= 'Z' then (c as int - 'A' as int + 'a' as int) as char else c
  }

  /** `/^data:/i.test(s)` */
  function IsDataUri(s: string): (b: bool)
    ensures b <==> |s| >= 5 && s[0] in "dD" && s[1] in "aA" && s[2] in "tT" && s[3] in "aA" && s[4] == ':'
  {
    |s| >= 5 && forall i :: 0 <= i < 5 ==> LowerAscii(s[i]) == "data:"[i]
  }

  /** The regular expression sees an absent `uri` as the text "undefined",
      which is never a data URI. */
  predicate IsDataUriValue(uri: Option<string>)
  {
    uri.Some? && IsDataUri(uri.value)
  }

  /** `str.substr(n)` for a non-negative `n`. */
  function Drop(str: string, n: nat): string
  {
    if n <= |str| then str[n..] else ""
  }

  function Settle(lib: Library, env: Env, options: Options, content: string): (s: Settings)
  {
    var context := options.context.GetOr(env.resourceDir);
    var url := lib.interpolateName(options.name.GetOr(DefaultName), context, content, options.regExp);
    Settings(context, env.publicPath.GetOr(""), options.inline.GetOr(false), url,
             PosixPath.Dirname(url),
             PosixPath.RelativePath(PosixPath.Resolve(env.resourceDir), env.assetLoaderFile))
  }

  /** The request handed to `importModule`, which is also the imported module. */
  function ImportRequest(assetLoaderPath: string, request: string): string
  {
    "!!" + assetLoaderPath + "!" + request
  }

  function TaskFor(lib: Library, s: Settings, importModule: string -> Result<string, string>,
                   uri: Option<string>): Task
  {
    if !lib.isUrlRequest(uri) then Skipped
    else if IsDataUriValue(uri) then Warned
    else
      var req := ImportRequest(s.assetLoaderPath, lib.urlToRequest(uri, s.context));
      Awaiting(req, importModule(req))
  }

  /** `[...(data.buffers ?? []), ...(data.images ?? [])]` */
  function Candidates(g: Gltf): seq<Asset>
  {
    g.buffers.GetOr([]) + g.images.GetOr([])
  }

  function Plan(lib: Library, s: Settings, importModule: string -> Result<string, string>,
                assets: seq<Asset>): (t: seq<Task>)
    ensures |t| == |assets|
  {
    seq(|assets|, i requires 0 <= i < |assets| => TaskFor(lib, s, importModule, assets[i].uri))
  }

  /** The requests of the awaiting tasks, in task order. */
  function Requests(t: seq<Task>): seq<string>
    decreases |t|
  {
    if t == [] then []
    else Requests(t[..|t| - 1]) + (if t[|t| - 1].Awaiting? then [t[|t| - 1].request] else [])
  }

  /** One warning per task that met a data URI. */
  function Warnings(t: seq<Task>): seq<string>
    decreases |t|
  {
    if t == [] then []
    else Warnings(t[..|t| - 1]) + (if t[|t| - 1].Warned? then [DataUriWarning] else [])
  }

  /** The error of the first awaiting task, in task order, whose import failed. */
  function FirstError(t: seq<Task>): Option<string>
    decreases |t|
  {
    if t == [] then None
    else match FirstError(t[..|t| - 1])
      case Some(e) => Some(e)
      case None =>
        var last := t[|t| - 1];
        if last.Awaiting? && last.result.Err? then Some(last.result.error) else None
  }

  /** The new `uri` for a resolved asset: the resolved value itself when
      inlining, else the resolved location, less as many leading characters as
      the public path has, relative to the directory of the output name. */
  function NewUri(s: Settings, result: string): string
  {
    if s.inline then result else PosixPath.RelativePath(s.baseUrl, Drop(result, |s.publicPath|))
  }

  function RewriteAsset(lib: Library, s: Settings, importModule: string -> Result<string, string>,
                        a: Asset): Asset
  {
    match TaskFor(lib, s, importModule, a.uri)
    case Awaiting(_, Ok(result)) => a.(uri := Some(NewUri(s, result)))
    case _ => a
  }

  function RewriteAll(lib: Library, s: Settings, importModule: string -> Result<string, string>,
                      assets: seq<Asset>): (r: seq<Asset>)
    ensures |r| == |assets|
  {
    seq(|assets|, i requires 0 <= i < |assets| => RewriteAsset(lib, s, importModule, assets[i]))
  }

  function RewriteDoc(lib: Library, s: Settings, importModule: string -> Result<string, string>,
                      g: Gltf): Gltf
  {
    Gltf(if g.buffers.Some? then Some(RewriteAll(lib, s, importModule, g.buffers.value)) else None,
         if g.images.Some? then Some(RewriteAll(lib, s, importModule, g.images.value)) else None,
         g.rest)
  }

  /** `` `import ${JSON.stringify(uri)};` `` */
  function ImportLine(request: string): string
  {
    "import " + Json.Quote(request) + ";"
  }

  function ExportLine(s: Settings, updated: string): string
  {
    if s.inline then InlineExportPrefix + updated else PathExportPrefix + Json.Quote(s.url)
  }

  function ImportLines(requests: seq<string>): (r: seq<string>)
    ensures |r| == |requests|
  {
    seq(|requests|, i requires 0 <= i < |requests| => ImportLine(requests[i]))
  }

  /** The lines of the generated module: the import lines, then the export line. */
  function Lines(s: Settings, requests: seq<string>, updated: string): seq<string>
  {
    ImportLines(requests) + [ExportLine(s, updated)]
  }

  /** `lines.join('\n')` */
  function JoinLines(lines: seq<string>): string
    decreases |lines|
  {
    if lines == [] then []
    else if |lines| == 1 then lines[0]
    else lines[0] + "\n" + JoinLines(lines[1..])
  }

  /** The run once the settings `s`, the tasks at the join `t` and the
      rewritten document `g'` are known: the first failed import fails it,
      otherwise the module source is generated and, outside inline mode, the
      serialised document emitted. */
  function Conclude(lib: Library, s: Settings, t: seq<Task>, g': Gltf): Run
  {
    match FirstError(t)
    case Some(e) => Run(ResolveFailed(e), Warnings(t), Requests(t), [], None)
    case None =>
      var updated := lib.stringify(g');
      Run(Loaded(JoinLines(Lines(s, Requests(t), updated))), Warnings(t), Requests(t),
          if s.inline then [] else [(s.url, updated)], Some(g'))
  }

  /** One run of the loader on the parsed content. */
  function Load(lib: Library, env: Env, options: Options, content: string,
                parsed: Result<Gltf, string>, importModule: string -> Result<string, string>): Run
  {
    match parsed
    case Err(e) => Run(ParseFailed(ParseErrorPrefix + e), [], [], [], None)
    case Ok(g) =>
      var s := Settle(lib, env, options, content);
      Conclude(lib, s, Plan(lib, s, importModule, Candidates(g)), RewriteDoc(lib, s, importModule, g))
  }
}
