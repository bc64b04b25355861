# gltf-loader, modelled in Dafny

This project models the webpack loader in `src/index.js` of gltf-loader.
The loader takes the text of a glTF file and makes every external `buffers[].uri` and `images[].uri` a dependency of the build:

- It hands each URL request to the build host as a nested module import, through a pass-through asset loader.
- It rewrites the descriptor's `uri` in place to the location the host resolved.
- It then returns a JavaScript module that imports those nested modules and exports the glTF.
- Outside inline mode, the module exports the public path of the rewritten glTF, which is emitted as a file.
- In inline mode, the module exports the rewritten glTF itself.

The model has six modules:

- `Values`: `Option` and `Result`.
- `Json`: a JSON value datatype, and `Quote`, which is `JSON.stringify` on a string. `Unquote` reads a quoted string back and is `Quote`'s partner.
- `PosixPath`: node's POSIX `path.resolve`, `path.dirname` and `path.relative`.
  - Paths are sequences of segments, resolved against the root `/`.
  - `RelativePath(from, to)` is one `..` per segment of `from` past the common prefix, then the rest of `to`.
  - `Dirname` answers the root for a top-level name.
- `Rewrite`: what one loader run does, as functions of its inputs.
  - `TaskFor` gives the state of one asset's task at the join.
  - `Plan` gives those states for all the assets.
  - `RewriteDoc` gives the rewritten document, and `Lines`/`JoinLines` the generated source.
  - `Conclude` gives what follows the join, and `Load` gives the whole `Run`: its outcome, the host's warnings, imports and emitted files, and the rewritten document.
- `RewriteProperties`: the properties of a run, proved about `Rewrite`.
- `Loader`: the loader in the source's own form.
  - Descriptors are `Descriptor` objects whose `uri` field is assigned in place.
  - The build host is a `Host` object. `importModule` answers from a fixed resolver, and ghost logs record every warning, import request and emitted file.
  - `LoadGltf` is proved to do exactly what `Rewrite.Load` describes, both to the host and to the document.

`Promise.all(assets.map(async asset => …))` runs in two halves:

1. Every task, in array order, runs up to its `await`: the URL-request test, the data-URI warning, and the `importModule` call.
2. Every continuation then runs, in array order: the push onto `imports` and the `uri` assignment.

This is one of the orders in which the host may complete the imports. The first failed import in array order is the run's failure.

The collaborators from `loader-utils` and from JSON are fields of the `Library` datatype and stay abstract: `isUrlRequest`, `urlToRequest`, `interpolateName` and `JSON.stringify` of a whole document. `JSON.parse` is modelled by its result: the loader receives the parsed document, or the parse error.

## Model

| member | source | states |
|---|---|---|
| Rewrite.IsDataUri | src/index.js:5 | true exactly when the text starts with `data:` in any letter case, character by character |
| Rewrite.Load | src/index.js:9-74 | one run as a value: the prefixed parse error, or the settings, the tasks at the join and `Conclude`; `Loader.LoadGltf` is proved to do exactly this, and the `RewriteProperties` lemmas state what it promises |
| Rewrite.Settle | src/index.js:28-36 | the context, public path, inline flag, output name, its directory and the asset loader's relative path, fixed before any asset is looked at; `RewriteProperties.OutputNameIgnoresImports` shows the name does not depend on the imports |
| Rewrite.Candidates | src/index.js:21-24 | `buffers` then `images`, an absent one as empty; `Loader.ViewOfAssets` ties it to the loader's asset array and `RewriteProperties.CandidatesOfRewrite` to the rewrite |
| Rewrite.TaskFor | src/index.js:39-50 | the state of one asset's task at the join: skipped, warned, or awaiting the import of `!!<asset loader>!<request>` with its result; `Loader.StartTask` runs it and `RewriteProperties.SkippedAssetsKeepTheirUri` characterises the first two |
| Rewrite.Drop | src/index.js:56 | `substr(n)` with a non-negative `n`: the text from position `n` on, or empty past the end; `RewriteProperties.StripIgnoresPrefixText` states what that means for the public path |
| Rewrite.NewUri | src/index.js:53-57 | the inline result, or the stripped location relative to the output name's directory; `RewriteProperties.NewUriLeadsToAsset` proves it leads to the asset |
| Rewrite.Conclude | src/index.js:60-73 | after the join: the first failed import fails the run, otherwise the source is generated and the serialised document emitted outside inline mode; `Loader.Process` is proved to do exactly this |
| Rewrite.ImportLine | src/index.js:65 | `import `, the quoted request and `;`; `RewriteProperties.ImportLineReadsBack` reads the request back |
| Rewrite.ExportLine | src/index.js:66-70 | the inline or public-path `export default` line; `RewriteProperties.LinesShape` and `RewriteProperties.ExportLineIsOneLine` characterise it |
| Rewrite.Lines | src/index.js:65-70 | the import lines, then the export line; characterised by `RewriteProperties.LinesShape` |
| Rewrite.JoinLines | src/index.js:71 | `lines.join('\n')`; `RewriteProperties.JoinLinesNewlines` shows it has one newline fewer than there are lines |
| RewriteProperties.ParseFailureIsInert | src/index.js:14-20 | malformed JSON fails with `Invalid glTF file: ` followed by the parse error; no warning, no import request, no emitted file and no document |
| Loader.ViewOfAssets | src/index.js:21-24 | the loader's asset list is the document's `buffers` followed by its `images`, an absent array counting as empty |
| RewriteProperties.CandidatesOfRewrite | src/index.js:21-24 | the candidates of the rewritten document are the candidates rewritten one by one, in order |
| RewriteProperties.RewriteChangesOnlyUris | src/index.js:38-58 | rewriting keeps both arrays, their lengths and order, and every member but `uri`; a `uri` changes only where the import succeeded, and then to the new relative or inline location |
| RewriteProperties.NoCandidatesNoChange | src/index.js:21-24 | a document with no buffers and no images is unchanged and imports nothing |
| RewriteProperties.SkippedAssetsKeepTheirUri | src/index.js:39-44 | a `uri` that fails the URL-request test, or a data URI, keeps its value and is not imported; such an asset warns exactly when its URI is a URL request |
| RewriteProperties.OneWarningPerDataUri | src/index.js:41-44 | there are exactly as many warnings as tasks that met a data URI, and each is the data-URI warning |
| RewriteProperties.OneImportPerResolvedAsset | src/index.js:49-51 | the number of imports equals the number of tasks that reached `importModule`; each such task's request is imported, and every import is some task's request |
| RewriteProperties.FirstErrorOfPrefix | src/index.js:38 | a failed import found among the first tasks is the failure of the whole join |
| RewriteProperties.NoErrorIffAllImportsSucceed | src/index.js:38-50 | the join fails if and only if some awaited import failed |
| RewriteProperties.ImportLineReadsBack | src/index.js:65 | each import line is `import `, the quoted request and `;`; the quoted text reads back as the request, and the line holds no newline |
| RewriteProperties.ExportLineIsOneLine | src/index.js:66-70 | the export line holds no newline: outside inline mode always, inline when the serialised document holds none |
| RewriteProperties.JoinLinesNewlines | src/index.js:71 | joining lines that hold no newline gives exactly one newline fewer than there are lines, so the text splits back into as many lines |
| RewriteProperties.SourceLineCount | src/index.js:65-71 | the generated source holds exactly one newline per import line, so it is one line per import plus the export line |
| RewriteProperties.LinesShape | src/index.js:65-70 | the lines are one import line per request, in order, followed by exactly one `export default` line: the serialised document when inline, otherwise `__webpack_public_path__ + ` and the quoted output name |
| RewriteProperties.LoadedSource | src/index.js:60-73 | a successful run returns the joined lines with one import per resolved asset; outside inline mode the serialised rewritten document is emitted once under the output name, and inline nothing is emitted |
| RewriteProperties.OutputNameIgnoresImports | src/index.js:30-36 | the emitted name is the name interpolated from the options and the original content, whatever the imports resolve to |
| RewriteProperties.NewUriLeadsToAsset | src/index.js:56 | outside inline mode, following the new `uri` from the output name's directory arrives at the resolved location with the public path's length removed |
| RewriteProperties.StripIgnoresPrefixText | src/index.js:56 | the public path is removed by length only: any prefix of that length is removed, whether or not it is the public path |
| RewriteProperties.SameDirectoryUri | test/loader.test.js:60 | an asset in the directory of the output name is referred to by its bare name |
| RewriteProperties.SiblingDirectoryUri | test/loader.test.js:74 | with a public path, an asset in a sibling directory of the output name is referred to through `../`, then its directory, then its name |
| RewriteProperties.TopLevelUri | src/index.js:36 | an output name at the top level refers to an asset by the asset's whole path |
| PosixPath.Split | src/index.js:56 | splitting at `/` gives at least one part, and no part holds a `/` |
| PosixPath.JoinSplit | src/index.js:56 | joining the parts of a split with `/` gives the string back |
| PosixPath.SplitJoin | src/index.js:56 | splitting a join of parts without `/` gives the parts back |
| PosixPath.Resolve | src/index.js:49 | a resolved path is a sequence of plain names (no empty part, no `.`, no `..`) |
| PosixPath.Dirname | src/index.js:36 | the resolved directory of the output name is a sequence of plain names |
| PosixPath.DirnameOfJoin | src/index.js:36 | the directory of `dir/name` is `dir`, for every normal `dir` and plain name; with `dir` empty, a top-level name's directory `.` resolves to the root |
| PosixPath.DirnameTrailingSlash | src/index.js:36 | a trailing slash does not change the directory, as `path.dirname` ignores it |
| PosixPath.RelativePath | src/index.js:56 | `path.relative(from, to)` with `from` resolved: the `..` segments and the rest of `to`, joined with `/`; `PosixPath.RelativePathLeadsTo` and `PosixPath.RelativePathEmpty` characterise it |
| PosixPath.CommonPrefix | src/index.js:56 | the common prefix length is a shared prefix, and the two paths differ just past it |
| PosixPath.RelativeArrives | src/index.js:56 | walking the relative segments from the directory arrives at the target |
| PosixPath.RelativePathLeadsTo | src/index.js:56 | resolving the relative path against the directory gives the resolved target |
| PosixPath.RelativePathEmpty | src/index.js:56 | the relative path is empty exactly when the target resolves to the directory itself |
| PosixPath.SameDirectory | src/index.js:56 | `dir/name` and `dir/asset` give the bare name `asset` |
| PosixPath.SiblingDirectory | src/index.js:56 | `dir/name` and `other/asset` give `../other/asset` |
| PosixPath.FromTopLevel | src/index.js:56 | a top-level name and `dir/asset` give `dir/asset` |
| Json.EscapeChar | src/index.js:65 | an escaped character is never a newline, and a quote appears only as the last character of its escape |
| Json.Quote | src/index.js:65 | `JSON.stringify` of a string: the escaped text between double quotes; `Json.QuoteRoundTrip` reads it back and `Json.QuoteIsOneLine` keeps it on one line |
| Json.UnescapeEscape | src/index.js:65 | reading back the escaped body of a string gives the string |
| Json.QuoteRoundTrip | src/index.js:65 | `JSON.stringify` of a string reads back as that string |
| Json.QuoteIsOneLine | src/index.js:65 | `JSON.stringify` of a string starts and ends with `"` and holds no newline |
| Loader.Host.EmitWarning | src/index.js:42 | the warning is appended to the host's warnings; nothing else changes |
| Loader.Host.ImportModule | src/index.js:50 | answers from the host's resolver and appends the request to the host's requests |
| Loader.Host.EmitFile | src/index.js:62 | the file's name and content are appended to the host's emitted files |
| Loader.StartTask | src/index.js:39-50 | one asset's task up to its `await` is `TaskFor` of its `uri`; it warns once for a data URI and requests exactly the import it awaits |
| Loader.StartAll | src/index.js:38-50 | the first half of the join yields `Plan` of the descriptors; the host's warnings and requests grow by those of the plan, in array order |
| Loader.StartNext | src/index.js:38-50 | one more task keeps the logs equal to those of all the tasks so far |
| Loader.FinishTask | src/index.js:53-57 | the descriptor's new `uri` is the inline result, or the path relative to the output name's directory; no other member changes |
| Loader.FinishNext | src/index.js:50-57 | one more continuation pushes its request and rewrites exactly its own descriptor |
| Loader.FinishAll | src/index.js:50-58 | the second half stops at the first failed import; otherwise imports are the plan's requests and the descriptors hold the rewritten values; no member but `uri` changes |
| Loader.ResolveAll | src/index.js:38-58 | the whole join: its failure, the host's logs and the rewritten descriptors are those of `Plan` and `RewriteAll` |
| Loader.Generate | src/index.js:60-73 | the source is the joined import lines and the export line; outside inline mode the serialised document is emitted under the output name |
| Loader.Process | src/index.js:21-73 | the loader on a parsed document, once settled: outcome, host logs and rewritten descriptors are those of `Conclude` on the plan and the rewritten document |
| Loader.LoadDocument | src/index.js:21-73 | the loader on a parsed document does what `Rewrite.Load` describes |
| Loader.LoadGltf | src/index.js:9-74 | the loader's outcome, the host's warnings, requests and emitted files, and the final document are exactly those of `Rewrite.Load` on the same inputs |
| Loader.ViewAfterRewrite | src/index.js:53-57 | once every resolved descriptor holds its new `uri`, the document's value is the rewritten document |

## Left out

- The webpack plumbing is not modelled: `getOptions` and its schema, `this.async()` and `callback`, and the lookup of `output.publicPath` in the compilation. The options, `this.context`, the public path and the location of the asset loader module are plain inputs.
- `loaderUtils.isUrlRequest`, `loaderUtils.urlToRequest` and `loaderUtils.interpolateName` are abstract functions: they are library code outside this repository. `interpolateName` gets the template, the context, the original content and `regExp`. It also gets the loader context `this`, whose `resourcePath` supplies `[name]` and `[ext]`; that path is fixed for one run, so it is folded into the abstract function rather than passed.
- `JSON.parse` is not modelled. The loader receives the parsed document or the parse error's text. The error's own wording (`err` turned into a string) is part of that input.
- `JSON.stringify` of the whole document is an abstract function of the document's value. `JSON.stringify` of a string is modelled, for the import and export lines.
- Concurrency is not modelled. The imports complete in array order, which is one order the host allows. In the source, `imports.push` runs after each `await`, so the order of the import lines follows completion order. The properties of imports are therefore stated as counts and membership, except where a single order is modelled.
- Loader.ResolveAll: on a failed import, the model stops at the first failed task in array order. It says nothing about the `uri` of later descriptors, because under `Promise.all` their continuations may still run after the rejection. Only "no member but `uri` changes" is stated for that case.
- The source calls `this.async()` and then returns a promise. A failed import rejects that promise without any call to `callback`. What the build host does with the rejected promise is outside this model. The model reports the run as `ResolveFailed` with the first error: the rejection that `Promise.all` (src/index.js:38) would report when the imports complete in array order.
- Documents whose `buffers` or `images` is present but not an array, whose entries are not objects, or whose top level is not an object are not modelled. Some of them make the loader throw: a top-level `null`, or a `buffers` that is a non-iterable object. Others do not: a top-level number, string or boolean has no `buffers` and acts as a document without assets, and a string-valued `buffers` spreads into its characters.
- A public path given as a function is not modelled: the public path is a string, absent meaning empty. webpack's `"auto"` is a string like any other here: the loader and the model both strip its four characters.
- The position of the `uri` member among a descriptor's other members, which `JSON.stringify` would show, is not modelled: a descriptor is its `uri` plus the other members.
- `path.resolve` is taken with the working directory at the root `/`. The loader hands `path.relative` the output name's directory (`path.dirname(url)`) and the stripped location, usually both relative, and node resolves them against `process.cwd()`. The model agrees with node when both are absolute, and when both are relative and neither climbs out with `..`: then the working directory is a common prefix and cancels. It disagrees when one is relative and the other absolute: `shared/x.gltf` with `/assets/x.png` gives `../assets/x.png` in the model, but node adds one more `..` per segment of the working directory. The asset loader's path (src/index.js:49) is taken between two absolute paths, where the model is exact.
- A descriptor without a `uri` member is handed to `isUrlRequest` as `undefined`, as in the code, and not skipped. The model follows the code: the absent `uri` is `None`, and what happens to it depends on the abstract `isUrlRequest` and `urlToRequest`.
- `src/asset-loader.js` is not part of this model. It only contextifies the remaining request and re-exports it; the loader sees it as the `assetLoaderFile` path.
- Rewrite.Drop: strings are sequences of Unicode scalar values, while JavaScript's `length` and `substr` (src/index.js:56) count UTF-16 code units. When the removed text is the public path itself the two strips agree. When the public path or the removed text holds a character above U+FFFF and they differ, they remove different amounts, which is the case `RewriteProperties.StripIgnoresPrefixText` describes.
- Json.Quote: `JSON.stringify` escapes a lone surrogate as `\ud8xx`; a Dafny string cannot hold one, so that case is not modelled.
- An absent member and `null` are the same `None`, for `uri` and for `buffers`/`images`. In the source, `isUrlRequest` and `urlToRequest` see `undefined` for one and `null` for the other, and `JSON.stringify` writes `"buffers":null` but omits an absent member. So the abstract functions of the model cannot tell the two apart, and `stringify` of the document's value cannot give the exact text for such a document.
