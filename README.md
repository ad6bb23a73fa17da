# vibes-renderer: the render endpoint and the artifact cache

The system is a small Express server that renders a Remotion composition
called `Scene` on demand. A `GET /` request goes through these stages in
order:

1. Bundle the scene.
2. List the compositions.
3. Make a temporary workspace.
4. Render the frames into the workspace, logging every tenth frame.
5. Stitch the frames into `out.mp4`.
6. Render a still into `out.png`.
7. Pin the still to Pinata/IPFS.
8. Pin the video to Pinata/IPFS.

A successful video upload records `JSON.stringify(query) -> out.mp4` in a
module-level map. The handler then answers with
`{image, video}` (gateway URLs, `''` for a failed upload). A throw in stages
1–6 is caught, logged and sent as `{error}`. A failed upload is logged and
sent as `{error}` from its own `.catch`, and the handler then goes on to the
next upload and to `res.json(jsonResponse)`, as far as no `res.json` call
throws on the way (see below).

Beside the handler sits `src/server/cache.ts`, a hash-to-file cache. It lives
in one directory made by `mkdtemp` when the module loads, and it has a mode
switch (`'filesystem' | 'none'`). The handler does not use it; the two stores
are separate.

The project models both in Dafny:

- `results.dfy` (`Results`): `Option` and `Result`.
- `paths.dfy` (`Paths`): POSIX `path.join`.
  - A path is split into segments, and empty and `.` segments are dropped.
  - `..` is resolved.
  - Lemmas say where `join(dir, name)` lands for a plain name, the empty name and `..`.
- `cache.dfy` (`Cache`): `getFileFromHash`, `isInCache`, `getFromCache` and `saveToCache`.
  - Each is a function of the mode, the settled `cacheDir` promise and the filesystem.
  - The filesystem is its regular files (path to bytes) and its directories.
  - The class `CacheStore` holds the module state, and its methods are proved against those functions.
- `json_key.dfy` (`JsonKey`): the cache key `JSON.stringify(req.query)` for a flat query of string values.
  - It also has a parser for that text.
  - The proof shows the key is injective, because parsing it gives the query back.
  - It also proves the key depends on parameter order.
- `progress.dfy` (`Progress`): the `onStart`/`onFrameUpdate` console lines.
- `handler.dfy` (`Handler`), for one request:
  - The foreign stages are the functions of a `World` value. Each foreign call either returns a value or throws.
  - `Run` is a pure function that gives everything the request does: the calls in order, the console output (each error entry says whether it went to `console.log` or to `console.error`), every `res.json` body, the cache entry written and any error left unhandled.
  - The classes `Response` (the Express response) and `Server` (the module's `cache` map, the calls made and the console) run the handler as a method. Each stage is proved to leave the state `Run` describes.
  - `res.json` has two views:
    - `strict`, as in Express: a second call throws `ERR_HTTP_HEADERS_SENT`.
    - Lenient: every call is recorded.
- `handler_properties.dfy` (`HandlerProperties`): the properties of `Run`, including:
  - the stage order;
  - abort on throw;
  - the paths passed between stages;
  - the response fields;
  - when the cache entry is written;
  - the double send.

The handler's behaviour under Express follows from that model. Express
refuses a second `res.json` on one response with `ERR_HTTP_HEADERS_SENT`.

- When exactly one upload fails, its `{error}` body is sent first. The final
  `res.json(jsonResponse)` then throws, the outer `catch` tries to send that
  error, throws again, and the handler's promise rejects.
- When both uploads fail, the image error is sent first. The video upload's
  own `.catch` (server.tsx:130) then throws, so the awaited upload rejects,
  `res.json(jsonResponse)` at server.tsx:133 is never reached, and the outer
  `catch` throws as before.

The client therefore sees only the first body: a failed image upload hides
the video URL even when the video upload succeeded
(`ImageFailureHidesVideoUrl`). `UploadResponses` gives the exact sequence of
`res.json` calls for all four outcomes in both views.

The cache key is the JSON text of the query in its own-property order. An
order-independent key would need the keys sorted first; the code
(server.tsx:122) uses `JSON.stringify`, which follows insertion order. The model follows the code: `KeyDependsOnOrder` proves that two
parameters in the other order give another key.

## Model

| member | source | states |
|---|---|---|
| Cache.Disk.Exists | src/server/cache.ts:25 | `fs.existsSync`: a path with a NUL character never exists, a path with a trailing slash exists exactly when it resolves to a directory, any other path when a file or directory is there |
| Cache.ReadFile | src/server/cache.ts:33 | reading succeeds exactly when the path is a stored regular file (no NUL, no trailing slash), and gives its bytes; it fails with EISDIR exactly when the path resolves to a directory, and with the invalid-argument error exactly when it holds a NUL |
| Cache.WriteFile | src/server/cache.ts:41 | the write succeeds exactly when the path has no NUL and no trailing slash, is no directory and its parent directory exists; on success that file holds the new bytes, nothing else changes and a valid filesystem stays valid; a NUL gives the invalid-argument error; otherwise a missing parent gives ENOENT, and an existing directory or a trailing slash under an existing parent gives EISDIR, as `open(2)` with `O_CREAT` does |
| Cache.FileFromHash | src/server/cache.ts:16-18 | `getFileFromHash`: `path.join(cacheDir, hash)`; its meaning is stated by `LocationDependsOnHashOnly`, `ParentOfCacheFile`, `EmptyHashDisagrees` and `SlashHashDisagrees` |
| Cache.Has | src/server/cache.ts:20-26 | in mode 'none' `isInCache` is false for every hash |
| Cache.Get | src/server/cache.ts:28-34 | in mode 'none' `getFromCache` fails with the "No cache enabled" error |
| Cache.Put | src/server/cache.ts:36-42 | in mode 'none' `saveToCache` leaves the filesystem unchanged |
| Cache.LocationDependsOnHashOnly | src/server/cache.ts:16-18 | for plain hashes, each entry is a file directly inside the one shared directory, and two hashes share a location exactly when they are equal |
| Cache.ParentOfCacheFile | src/server/cache.ts:16-18 | the parent directory of a cache file is the cache directory |
| Cache.HasIffExists | src/server/cache.ts:25 | in filesystem mode `isInCache(h)` is exactly whether something exists at the path for `h` |
| Cache.HasAgreesWithGet | src/server/cache.ts:20-34 | when the hash's path does not resolve to a directory, `isInCache` reports true exactly when `getFromCache` yields data |
| Cache.DirectoryHashesDisagree | src/server/cache.ts:20-41 | when the hash's path resolves to a directory, `isInCache` reports it present while reading and writing it fail with EISDIR |
| Cache.EmptyHashDisagrees | src/server/cache.ts:16-41 | the empty hash names the cache directory itself: `isInCache` reports it present while reading and writing it both fail with EISDIR |
| Cache.SlashHashDisagrees | src/server/cache.ts:16-33 | the hash "/" gives `cacheDir + "/"`, which resolves to the cache directory: `isInCache` reports it present while reading it fails with EISDIR |
| Cache.PutSucceeds | src/server/cache.ts:36-42 | saving a plain hash without NUL into the existing cache directory of a valid filesystem succeeds and sets exactly that file |
| Cache.SaveThenGet | src/server/cache.ts:25-41 | after a successful save in filesystem mode, `getFromCache` yields exactly the saved bytes and `isInCache` is true |
| Cache.SaveOverwrites | src/server/cache.ts:41 | saving twice under one hash equals saving only the second file |
| Cache.SaveKeepsOthers | src/server/cache.ts:36-42 | a save leaves the lookup and presence of every other plain hash unchanged |
| Cache.OffModeIsInert | src/server/cache.ts:21-39 | in mode 'none' a save changes nothing, and afterwards every hash is absent and unreadable |
| Cache.TempDirUnderRoot | src/server/cache.ts:7 | for a normal temporary root and a six-character random suffix, the directory `mkdtemp` makes is `tmpdir + "/remotion-" + suffix`, a normal absolute stored path whose parent is the root |
| Cache.CacheStore.constructor | src/server/cache.ts:7 | loading the module makes the directory `join(tmpdir, 'remotion-') + suffix` when the temporary root exists, and otherwise `cacheDir` holds the ENOENT error naming the `remotion-XXXXXX` template; the store is valid, so its directory is normal and absolute |
| Cache.CacheStore.IsInCache | src/server/cache.ts:20-26 | the answer is `Has` of the store's mode, directory and filesystem |
| Cache.CacheStore.GetFromCache | src/server/cache.ts:28-34 | the answer is `Get` of the store's mode, directory and filesystem |
| Cache.CacheStore.SaveToCache | src/server/cache.ts:36-42 | succeeds exactly when `Put` does; the new filesystem is `Put`'s, and on failure it is unchanged and the error is `Put`'s |
| Paths.Join | src/server/cache.ts:17 | `path.posix.join` of two arguments: empty arguments skipped, the rest glued with "/" and normalised; its meaning is stated by the `Join…` lemmas |
| Paths.JoinPlainName | src/server/cache.ts:17 | `path.join(dir, name)` for a normal absolute directory and a nonempty name without `/` other than `.` and `..` is `dir + "/" + name`, directly inside `dir` |
| Paths.JoinEmptyName | src/server/cache.ts:17 | `path.join(dir, "")` is `dir` itself |
| Paths.JoinDotDotLeaves | src/server/cache.ts:17 | `path.join(dir, "..")` is the parent of `dir`, a shorter path not inside `dir` |
| Paths.JoinSlash | src/server/cache.ts:17 | `path.join(dir, "/")` keeps the trailing slash: it is `dir + "/"` |
| JsonKey.Stringify | server.tsx:122 | `JSON.stringify(req.query)` for a flat query of strings: each key and value quoted as QuoteJSONString does, in property order, inside braces; its meaning is stated by `RoundTrip` |
| JsonKey.RoundTrip | server.tsx:122 | parsing `JSON.stringify(query)` gives back the query |
| JsonKey.KeyDeterminesQuery | server.tsx:122 | two queries have the same cache key exactly when they are equal |
| JsonKey.KeyDependsOnOrder | server.tsx:122 | two different parameters give different keys in the two orders |
| Progress.OnFrameUpdate | server.tsx:46-50 | the callback prints at most one line, and prints one exactly when `f % 10 == 0` |
| Progress.DecimalRoundTrip | server.tsx:48 | the decimal text of a frame number reads back as that number |
| Progress.PrefixedLinesDetermineFrame | server.tsx:48 | two "Rendered frame" lines are equal exactly when their frames are |
| Progress.ProgressLog | server.tsx:45-50 | the lines the `onStart` and `onFrameUpdate` callbacks print for the events the renderer reports, in order; its meaning is stated by `FrameLoggedIff` and `ProgressLogLines` |
| Progress.FrameLoggedIff | server.tsx:45-50 | "Rendered frame f" is printed exactly when the renderer reported frame `f` and `f % 10 == 0` |
| Progress.ProgressLogLines | server.tsx:45-50 | every printed line is the start line or the line of a reported frame that is a multiple of ten |
| Handler.Find | server.tsx:28 | the result is absent exactly when no composition has the id; otherwise it is the first one that has it |
| Handler.Catch | server.tsx:134-138 | the outer `catch`: log the error and send `{error}`; the send throws in strict mode after an earlier send |
| Handler.Respond | server.tsx:133 | the final `res.json(jsonResponse)`, whose throw in strict mode goes to the outer `catch` |
| Handler.Run | server.tsx:24-140 | everything one request does, from the bundle call on; its meaning is stated by the `HandlerProperties` lemmas |
| Handler.LoadCompositions | server.tsx:27-37 | `getCompositions` with the query as input props, then the first composition called 'Scene', or the "No video called Scene" error |
| Handler.Produce | server.tsx:39-41 | `mkdtemp(join(tmpdir, 'remotion-'))`: the workspace is the prefix followed by the suffix `mkdtemp` chose |
| Handler.Frames | server.tsx:42-56 | `renderFrames` of the composition into the workspace as jpeg, with the progress lines |
| Handler.Encode | server.tsx:58-68 | `stitchFramesToVideo` from the workspace into `tmpDir/out.mp4` with the composition's fps and size |
| Handler.Still | server.tsx:70-81 | "rendering still", then `renderStill` into `tmpDir/out.png` as png |
| Handler.PublishImage | server.tsx:86-107 | pin `out.png`; the image URL is the gateway prefix and hash, or the error is logged and sent and the video upload follows |
| Handler.PublishVideo | server.tsx:109-133 | pin `out.mp4`; on success the cache entry and the video URL, on failure the error sent; then `jsonResponse` |
| Handler.Response.constructor | server.tsx:24 | a new response has no body sent |
| Handler.Response.Json | server.tsx:100-136 | the body is appended to the sent bodies; in strict mode a call after the first throws the headers-sent error, and the client receives only the first body |
| Handler.Server.constructor | server.tsx:22 | the cache map starts empty |
| Handler.Server.HandleRequest | server.tsx:24-140 | the calls, console lines, sent bodies, cache update and unhandled error are those of `Run`; the cache only gains keys |
| Handler.Server.CatchStage | server.tsx:134-138 | the error is logged and sent, as `Catch` says |
| Handler.Server.RespondStage | server.tsx:133 | `jsonResponse` is sent, and a throw goes to the outer catch, as `Respond` says |
| Handler.Server.CompositionsStage | server.tsx:27-37 | lists the compositions and finds 'Scene' or throws "No video called Scene", as `LoadCompositions` says |
| Handler.Server.ProduceStage | server.tsx:39-41 | asks `mkdtemp` for a directory with the prefix `join(tmpdir, 'remotion-')`; the workspace is that prefix followed by the suffix `mkdtemp` chose, as `Produce` says |
| Handler.Server.FramesStage | server.tsx:42-56 | renders the frames into the workspace and prints the progress lines, as `Frames` says |
| Handler.Server.EncodeStage | server.tsx:58-68 | stitches into `tmpDir/out.mp4` with the composition's fps and size, as `Encode` says |
| Handler.Server.StillStage | server.tsx:70-81 | renders the still into `tmpDir/out.png`, as `Still` says |
| Handler.Server.ImageStage | server.tsx:86-107 | pins `out.png`; on success the image URL is the gateway prefix and hash, on failure the error is logged and sent and the video upload still follows, as `PublishImage` says |
| Handler.Server.VideoStage | server.tsx:109-133 | pins `out.mp4`; on success the cache maps the query's key to `out.mp4` and the video URL is set; on failure the error is sent; then `jsonResponse` is sent, as `PublishVideo` says |
| HandlerProperties.StagesRunInOrder | server.tsx:26-133 | the calls made are a prefix of bundle, compositions, mkdtemp, renderFrames, stitch, renderStill, image pin, video pin; every call but the last let the handler go on, a run that stops early stops at a throw, and a failed image upload never stops the video upload |
| HandlerProperties.MissingSceneStopsEarly | server.tsx:28-37 | without a 'Scene' composition, only bundling and listing happen; the error is logged and sent once; nothing is cached |
| HandlerProperties.EarlyFailureSendsOneError | server.tsx:134-138 | a run stopped before the uploads sends exactly one body, the error it logged, writes no cache entry and leaves nothing unhandled |
| HandlerProperties.StagesShareOneWorkspace | server.tsx:26-110 | each stage receives the outputs of the stages before it; the workspace is the `mkdtemp` prefix followed by the suffix it chose; frames, video and still go to that one workspace; the uploads read exactly `out.png` and `out.mp4` there |
| HandlerProperties.ResponseFieldsFollowUploads | server.tsx:30-124 | every `{image, video}` body holds, field by field, the gateway URL of that upload or `''`, each independent of the other upload |
| HandlerProperties.CacheWrittenIffVideoPinned | server.tsx:121-126 | the cache entry is written exactly when the video upload succeeds, and it maps the query's key to the stitched `out.mp4` |
| HandlerProperties.UploadResponses | server.tsx:88-133 | once the uploads ran: in the lenient view each failed upload sends its error, then `jsonResponse` follows; under Express, with both uploads failed the two errors and the headers-sent error are sent and `jsonResponse` never is, with one failed its error, `jsonResponse` and the headers-sent error, and the request ends with an unhandled headers-sent error whenever an upload failed |
| HandlerProperties.SeveralSendsIffUploadFailed | server.tsx:100-136 | at least one body is sent, and more than one exactly when the uploads ran and one of them failed |
| HandlerProperties.ClientReceivesFirstBody | server.tsx:100-136 | under Express the client receives exactly the first body sent |
| HandlerProperties.ImageFailureHidesVideoUrl | server.tsx:103-133 | under Express a failed image upload means the client receives that error and no video URL |

## Left out

- Express routing, `app.listen`, dotenv and the Pinata credentials are left out. They are configuration, not logic.
- Concurrency is left out. Each request is modelled as one sequential run, and interleaving of concurrent requests on the shared `cache` map is not modelled.
- The foreign libraries are left out: `bundle`, `getCompositions`, `renderFrames`, `stitchFramesToVideo`, `renderStill`, axios/Pinata, `FormData` and file streams. Each is an arbitrary function of its arguments in `World`.
- Each foreign stage gives one fixed answer per argument list within a request. Timeouts and differing answers to repeated calls are not modelled.
- `os.tmpdir()` and `__dirname` are parameters. The random suffix of the cache directory is a parameter of `CacheStore`'s constructor. The handler's workspace suffix is `mkdtemp`'s answer in `World`, of any form.
- `renderFrames`'s `onStart`/`onFrameUpdate` callbacks are modelled as the event list the renderer reports.
- For parallelism, the model takes the callbacks in the order reported.
- `renderStill`'s `onError` swallows errors and does nothing, so it adds nothing.
- Only the error is modelled in response bodies and log entries. The serialisation of a thrown value by `res.json({error})` is not built, and neither are the text of `console.log(error)` and the rest of `response.data`.
- The model does not promise that the pinned hash is a well-formed IPFS CID.
- The workspace is never removed. The model neither adds a cleanup nor checks disk space.
- `req.query` is modelled as a flat list of string pairs in property order. The following are not modelled:
  - array and nested values;
  - JavaScript's rule that integer-like keys come first in property order.
- The key's escaping follows ECMAScript's QuoteJSONString. Characters are Unicode scalar values, so lone surrogates cannot occur. The parser that reads the key back is the model's own, for the text `JSON.stringify` produces from such a query.
- `src/Scene.tsx` and `remotion.config.ts` are not part of this model. They are React/three.js scene code on floating point, and library configuration.
- `src/server/config.ts` is folded into `CacheMode`.
- The `s3-bucket` mode its comment mentions is not modelled. The type allows only `'filesystem' | 'none'`.
- `Cache.ReadFile`: `createReadStream` opens lazily and reports a missing file through the stream's `error` event. The model reads the stream to its end and returns that failure as the call's error.
- File permissions and symbolic links are not modelled. Neither is ENOTDIR for a file in place of a parent directory (the model reports ENOENT there). Paths are compared as strings apart from trailing slashes, so `//` and `.` inside a path given directly to the filesystem are not resolved. `FileFromHash` paths are normalised by `path.join`, so only the trailing slash matters for them.
- `Cache.CacheStore.constructor`: `mkdtemp` failures other than a missing parent are not modelled. The temporary root is assumed normal, absolute and not `/`; Node also allows `/`, a relative `TMPDIR` and an un-normalised `TMPDIR` there.
- The cache directory promise is modelled as already settled.
- Process termination on an unhandled rejection is not modelled. The model assumes a Node that keeps running after one: either an older Node, or one started with `--unhandled-rejections=warn`. Two rejections nobody handles are at stake:
  - the handler's promise rejecting with `ERR_HTTP_HEADERS_SENT` (`Run`'s `unhandled`), which Express 4 does not catch;
  - a `cacheDir` promise that rejects at module load, before anything awaits it.
  In the model, `Server` and `CacheStore` go on serving after these. From Node 15 on, the default is to end the process, losing the module-level `cache` map.
- In filesystem mode, a failed `cacheDir` makes every operation fail with that error.
- `Paths`: `path.join`'s normalisation is modelled for `/`-separated POSIX paths. The Windows variant is not modelled.
- The handler's `jsonResponse` object is the `image` parameter threaded from the image stage to the video stage, and then the body sent. Its two fields are assigned once each, as in the source, so no separate record is kept.
