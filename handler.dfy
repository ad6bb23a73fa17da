/**
 * The `GET /` handler of server.tsx, one request at a time.
 *
 * The foreign stages (bundling, listing compositions, making the temporary
 * directory, rendering frames, stitching, rendering the still, pinning a
 * file) are the functions of a `World`: each call either yields a value or
 * throws. What the handler adds is the order of the stages, the paths it
 * hands them, the response it assembles, the module-level cache it writes
 * and the responses it sends.
 */
module Handler {
  import opened Results
  import opened Paths
  import opened JsonKey
  import opened Progress

  const CompositionId: string := "Scene"
  const EntryPoint: string := "./src/index.tsx"
  const TempPrefix: string := "remotion-"
  const VideoFile: string := "out.mp4"
  const StillFile: string := "out.png"
  const PinUrl: string := "https://api.pinata.cloud/pinning/pinFileToIPFS"
  const MediaUrl: string := "https://gateway.pinata.cloud/ipfs/"
  const VideoDoneLine: string := "Video rendered and sent!"
  const StillLine: string := "rendering still"

  /** A thrown JavaScript value, seen through its message. */
  datatype Error = Error(message: string)

  const NoVideoError: Error := Error("No video called " + CompositionId)
  /** What Express throws when a response is sent a second time. */
  const HeadersSentError: Error := Error("Cannot set headers after they are sent to the client")

  datatype Composition = Composition(id: string, width: nat, height: nat, fps: nat, durationInFrames: nat)

  /** The media metadata that frame rendering hands on to stitching; its contents are the renderer's. */
  datatype AssetsInfo = AssetsInfo(assets: seq<string>)

  /** The arguments of each foreign stage, as server.tsx builds them. */
  datatype FramesJob = FramesJob(config: Composition, webpackBundle: Path, outputDir: Path,
                                 inputProps: Query, compositionId: string, imageFormat: string)
  datatype StitchJob = StitchJob(dir: Path, force: bool, fps: nat, height: nat, width: nat,
                                 outputLocation: Path, imageFormat: string, assetsInfo: AssetsInfo)
  datatype StillJob = StillJob(composition: Composition, webpackBundle: Path, output: Path,
                               inputProps: Query, imageFormat: string)

  /** What frame rendering does: the callbacks it makes, then its result. */
  datatype FramesRun = FramesRun(events: seq<RenderEvent>, outcome: Result<AssetsInfo, Error>)

  /** The environment of one request: the process's directories and every foreign call's answer. */
  datatype World = World(
    appDir: Path,                                          // __dirname
    osTmpDir: Path,                                        // os.tmpdir()
    bundle: Path -> Result<Path, Error>,
    getCompositions: (Path, Query) -> Result<seq<Composition>, Error>,
    mkdtemp: Path -> Result<string, Error>,                // the random suffix appended to the prefix
    renderFrames: FramesJob -> FramesRun,
    stitchFramesToVideo: StitchJob -> Result<(), Error>,
    renderStill: StillJob -> Result<(), Error>,
    pinFile: (string, Path) -> Result<string, Error>)     // the IpfsHash of the pinned file

  /** A foreign call the handler makes, with its arguments. */
  datatype Call =
    | Bundle(entryPoint: Path)
    | GetCompositions(bundleDir: Path, inputProps: Query)
    | MakeTempDir(prefix: Path)
    | RenderFrames(frames: FramesJob)
    | Stitch(stitch: StitchJob)
    | RenderStill(still: StillJob)
    | Pin(endpoint: string, file: Path)

  /** A body passed to `res.json`. */
  datatype Body = ErrorBody(error: Error) | MediaBody(image: string, video: string)

  /** A console entry: `console.log` of a line, of an error or of the pin data, or `console.error` of an error. */
  datatype LogEntry = Line(text: string) | Logged(error: Error) | PinData(ipfsHash: string) | ErrorLogged(thrown: Error)

  /**
   * Everything one request does: the foreign calls in order, the console
   * output, every `res.json` call, the cache entry set (if any) and the
   * error the handler's promise rejects with (if any).
   */
  datatype Effects = Effects(calls: seq<Call>, log: seq<LogEntry>, sends: seq<Body>,
                             cacheWrite: Option<(string, Path)>, unhandled: Option<Error>)

  /** `comps.find((c) => c.id === id)`: the first composition with that id. */
  function Find(comps: seq<Composition>, id: string): (r: Option<Composition>)
    ensures r.None? <==> forall c <- comps :: c.id != id
    ensures r.Some? ==> exists i :: 0 <= i < |comps| && comps[i] == r.value && r.value.id == id &&
                                 forall j :: 0 <= j < i ==> comps[j].id != id
  {
    if |comps| == 0 then None
    else if comps[0].id == id then Some(comps[0])
    else
      var r := Find(comps[1..], id);
      if r.Some? then
        ghost var i :| 0 <= i < |comps[1..]| && comps[1..][i] == r.value && r.value.id == id &&
                       forall j :: 0 <= j < i ==> comps[1..][j].id != id;
        assert comps[i + 1] == r.value;
        assert forall j :: 0 <= j < i + 1 ==> comps[j].id != id by {
          forall j | 0 <= j < i + 1 ensures comps[j].id != id {
            if j > 0 { assert comps[j] == comps[1..][j - 1]; }
          }
        }
        r
      else r
  }

  /** Whether a `res.json` call throws: with `strict` (Express), every call after the first does. */
  predicate SendThrows(sendsBefore: seq<Body>, strict: bool)
  {
    strict && |sendsBefore| > 0
  }

  /** The bodies that reach the client. */
  function Delivered(sends: seq<Body>, strict: bool): seq<Body>
  {
    if strict && |sends| > 1 then sends[..1] else sends
  }

  // -----------------------------------------------------------------------
  // One request, stage by stage. Each function continues from the effects
  // `e` of the stages before it.

  /** The `catch (err)` block (server.tsx:134-138): log the error, send it. */
  function Catch(e: Effects, err: Error, strict: bool): Effects
  {
    e.(log := e.log + [ErrorLogged(err)], sends := e.sends + [ErrorBody(err)],
       unhandled := if SendThrows(e.sends, strict) then Some(HeadersSentError) else None)
  }

  /** `res.json(body)` at the end of the `try` block (server.tsx:133). */
  function Respond(e: Effects, body: Body, strict: bool): Effects
  {
    var e1 := e.(sends := e.sends + [body]);
    if SendThrows(e.sends, strict) then Catch(e1, HeadersSentError, strict) else e1
  }

  function Run(w: World, q: Query, strict: bool): Effects
  {
    var entry := Join(w.appDir, EntryPoint);
    var e := Effects([Bundle(entry)], [], [], None, None);
    match w.bundle(entry)
    case Err(err) => Catch(e, err, strict)
    case Ok(bundled) => LoadCompositions(w, q, strict, e, bundled)
  }

  function LoadCompositions(w: World, q: Query, strict: bool, e: Effects, bundled: Path): Effects
  {
    var e1 := e.(calls := e.calls + [GetCompositions(bundled, q)]);
    match w.getCompositions(bundled, q)
    case Err(err) => Catch(e1, err, strict)
    case Ok(comps) =>
      match Find(comps, CompositionId)
      case None => Catch(e1, NoVideoError, strict)
      case Some(video) => Produce(w, q, strict, e1, bundled, video)
  }

  /** The temporary directory of the request (server.tsx:39-41): the prefix followed by the suffix `mkdtemp` chose. */
  function Produce(w: World, q: Query, strict: bool, e: Effects, bundled: Path, video: Composition): Effects
  {
    var prefix := Join(w.osTmpDir, TempPrefix);
    var e1 := e.(calls := e.calls + [MakeTempDir(prefix)]);
    match w.mkdtemp(prefix)
    case Err(err) => Catch(e1, err, strict)
    case Ok(suffix) => Frames(w, q, strict, e1, bundled, video, prefix + suffix)
  }

  /** Rendering the frames into the workspace `tmpDir` (server.tsx:42-56). */
  function Frames(w: World, q: Query, strict: bool, e: Effects, bundled: Path, video: Composition, tmpDir: Path): Effects
  {
    var frames := FramesJob(video, bundled, tmpDir, q, CompositionId, "jpeg");
    var run := w.renderFrames(frames);
    var e2 := e.(calls := e.calls + [RenderFrames(frames)], log := e.log + ProgressEntries(run.events));
    match run.outcome
    case Err(err) => Catch(e2, err, strict)
    case Ok(assets) => Encode(w, q, strict, e2, bundled, video, tmpDir, assets)
  }

  /** Stitching the frames into `tmpDir/out.mp4` (server.tsx:58-68). */
  function Encode(w: World, q: Query, strict: bool, e: Effects, bundled: Path, video: Composition,
                  tmpDir: Path, assets: AssetsInfo): Effects
  {
    var finalOutput := Join(tmpDir, VideoFile);
    var stitch := StitchJob(tmpDir, true, video.fps, video.height, video.width, finalOutput, "jpeg", assets);
    var e3 := e.(calls := e.calls + [Stitch(stitch)]);
    match w.stitchFramesToVideo(stitch)
    case Err(err) => Catch(e3, err, strict)
    case Ok(_) => Still(w, q, strict, e3, bundled, video, tmpDir)
  }

  /** Rendering the still into `tmpDir/out.png` (server.tsx:70-81). */
  function Still(w: World, q: Query, strict: bool, e: Effects, bundled: Path, video: Composition, tmpDir: Path): Effects
  {
    var still := StillJob(video, bundled, Join(tmpDir, StillFile), q, "png");
    var e4 := e.(calls := e.calls + [RenderStill(still)], log := e.log + [Line(StillLine)]);
    match w.renderStill(still)
    case Err(err) => Catch(e4, err, strict)
    case Ok(_) => PublishImage(w, q, strict, e4, tmpDir)
  }

  /** The image upload (server.tsx:88-107); a failure is sent and logged but does not stop the video upload. */
  function PublishImage(w: World, q: Query, strict: bool, e: Effects, tmpDir: Path): Effects
  {
    var file := Join(tmpDir, StillFile);
    var e1 := e.(calls := e.calls + [Pin(PinUrl, file)]);
    match w.pinFile(PinUrl, file)
    case Ok(hash) => PublishVideo(w, q, strict, e1, tmpDir, MediaUrl + hash)
    case Err(err) =>
      var e2 := e1.(log := e1.log + [Logged(err)], sends := e1.sends + [ErrorBody(err)]);
      if SendThrows(e1.sends, strict) then Catch(e2, HeadersSentError, strict)
      else PublishVideo(w, q, strict, e2, tmpDir, "")
  }

  /** The video upload (server.tsx:109-131), the cache write, and the final `res.json(jsonResponse)`. */
  function PublishVideo(w: World, q: Query, strict: bool, e: Effects, tmpDir: Path, image: string): Effects
  {
    var file := Join(tmpDir, VideoFile);
    var e1 := e.(calls := e.calls + [Pin(PinUrl, file)]);
    match w.pinFile(PinUrl, file)
    case Ok(hash) =>
      var e2 := e1.(cacheWrite := Some((Stringify(q), Join(tmpDir, VideoFile))),
                    log := e1.log + [PinData(hash), Line(VideoDoneLine)]);
      Respond(e2, MediaBody(image, MediaUrl + hash), strict)
    case Err(err) =>
      var e2 := e1.(log := e1.log + [Logged(err)], sends := e1.sends + [ErrorBody(err)]);
      if SendThrows(e1.sends, strict) then Catch(e2, HeadersSentError, strict)
      else Respond(e2, MediaBody(image, ""), strict)
  }

  /** The console lines of the render callbacks. */
  function ProgressEntries(events: seq<RenderEvent>): seq<LogEntry>
  {
    seq(|ProgressLog(events)|, i requires 0 <= i < |ProgressLog(events)| => Line(ProgressLog(events)[i]))
  }

  // -----------------------------------------------------------------------
  // The handler as it runs: the response object and the module state.

  /** The Express response of one request. */
  class Response {
    /** Whether a second `res.json` throws, as Express's does. */
    const strict: bool
    /** Every `res.json` call, in order. */
    var sends: seq<Body>
    /** The bodies that reached the client. */
    var delivered: seq<Body>

    ghost predicate Valid()
      reads this
    {
      delivered == Delivered(sends, strict)
    }

    constructor (strict: bool)
      ensures Valid() && this.strict == strict && sends == []
    {
      this.strict := strict;
      sends, delivered := [], [];
    }

    /** `res.json(body)`. */
    method Json(body: Body) returns (thrown: Option<Error>)
      requires Valid()
      modifies this
      ensures Valid()
      ensures sends == old(sends) + [body]
      ensures thrown == if SendThrows(old(sends), strict) then Some(HeadersSentError) else None
    {
      if strict && |sends| > 0 {
        thrown := Some(HeadersSentError);
      } else {
        thrown := None;
        delivered := delivered + [body];
      }
      sends := sends + [body];
    }
  }

  /** The module-level state of server.tsx and what the process shows of it. */
  class Server {
    /** `const cache = new Map<string, string>()` (server.tsx:22). */
    var cache: map<string, Path>
    /** The foreign calls made so far. */
    var calls: seq<Call>
    /** The console output so far. */
    var log: seq<LogEntry>

    constructor ()
      ensures cache == map[] && calls == [] && log == []
    {
      cache, calls, log := map[], [], [];
    }

    /**
     * The server and the response show effects `e` of the request in
     * progress, on top of the calls, log and cache from before it.
     */
    ghost predicate Shows(e: Effects, c0: seq<Call>, l0: seq<LogEntry>, m0: map<string, Path>, res: Response)
      reads this, res
    {
      res.Valid() && calls == c0 + e.calls && log == l0 + e.log && res.sends == e.sends &&
      cache == (if e.cacheWrite.Some? then m0[e.cacheWrite.value.0 := e.cacheWrite.value.1] else m0)
    }

    /** The `app.get('/')` handler (server.tsx:24-140), for one request with query `q`. */
    method HandleRequest(w: World, q: Query, res: Response) returns (unhandled: Option<Error>)
      requires res.Valid() && res.sends == []
      modifies this, res
      ensures var e := Run(w, q, res.strict);
        calls == old(calls) + e.calls && log == old(log) + e.log && res.sends == e.sends &&
        cache == (if e.cacheWrite.Some? then old(cache)[e.cacheWrite.value.0 := e.cacheWrite.value.1] else old(cache)) &&
        unhandled == e.unhandled
      ensures res.Valid()
      ensures old(cache).Keys <= cache.Keys
    {
      ghost var c0, l0, m0 := calls, log, cache;
      var entry := Join(w.appDir, EntryPoint);
      calls := calls + [Bundle(entry)];
      ghost var e := Effects([Bundle(entry)], [], [], None, None);
      var bundled := w.bundle(entry);
      if bundled.Err? {
        unhandled := CatchStage(bundled.error, res, e, c0, l0, m0);
      } else {
        unhandled := CompositionsStage(w, q, res, bundled.value, e, c0, l0, m0);
      }
    }

    /** The outer `catch` block (server.tsx:134-138). */
    method CatchStage(err: Error, res: Response, ghost e: Effects, ghost c0: seq<Call>, ghost l0: seq<LogEntry>, ghost m0: map<string, Path>)
      returns (unhandled: Option<Error>)
      requires Shows(e, c0, l0, m0, res)
      modifies this`log, res
      ensures Shows(Catch(e, err, res.strict), c0, l0, m0, res)
      ensures unhandled == Catch(e, err, res.strict).unhandled
    {
      log := log + [ErrorLogged(err)];
      unhandled := res.Json(ErrorBody(err));
    }

    /** The final `res.json(jsonResponse)` (server.tsx:133). */
    method RespondStage(body: Body, res: Response, ghost e: Effects, ghost c0: seq<Call>, ghost l0: seq<LogEntry>, ghost m0: map<string, Path>)
      returns (unhandled: Option<Error>)
      requires Shows(e, c0, l0, m0, res) && e.unhandled.None?
      modifies this`log, res
      ensures Shows(Respond(e, body, res.strict), c0, l0, m0, res)
      ensures unhandled == Respond(e, body, res.strict).unhandled
    {
      var thrown := res.Json(body);
      ghost var e1 := e.(sends := e.sends + [body]);
      if thrown.Some? {
        unhandled := CatchStage(thrown.value, res, e1, c0, l0, m0);
      } else {
        unhandled := None;
      }
    }

    method CompositionsStage(w: World, q: Query, res: Response, bundled: Path,
                             ghost e: Effects, ghost c0: seq<Call>, ghost l0: seq<LogEntry>, ghost m0: map<string, Path>)
      returns (unhandled: Option<Error>)
      requires Shows(e, c0, l0, m0, res) && e.cacheWrite.None? && e.sends == [] && e.unhandled.None?
      modifies this, res
      ensures Shows(LoadCompositions(w, q, res.strict, e, bundled), c0, l0, m0, res)
      ensures unhandled == LoadCompositions(w, q, res.strict, e, bundled).unhandled
    {
      calls := calls + [GetCompositions(bundled, q)];
      ghost var e1 := e.(calls := e.calls + [GetCompositions(bundled, q)]);
      var comps := w.getCompositions(bundled, q);
      if comps.Err? {
        unhandled := CatchStage(comps.error, res, e1, c0, l0, m0);
        return;
      }
      var video := Find(comps.value, CompositionId);
      if video.None? {
        unhandled := CatchStage(NoVideoError, res, e1, c0, l0, m0);
      } else {
        unhandled := ProduceStage(w, q, res, bundled, video.value, e1, c0, l0, m0);
      }
    }

    method ProduceStage(w: World, q: Query, res: Response, bundled: Path, video: Composition,
                        ghost e: Effects, ghost c0: seq<Call>, ghost l0: seq<LogEntry>, ghost m0: map<string, Path>)
      returns (unhandled: Option<Error>)
      requires Shows(e, c0, l0, m0, res) && e.cacheWrite.None? && e.sends == [] && e.unhandled.None?
      modifies this, res
      ensures Shows(Produce(w, q, res.strict, e, bundled, video), c0, l0, m0, res)
      ensures unhandled == Produce(w, q, res.strict, e, bundled, video).unhandled
    {
      var prefix := Join(w.osTmpDir, TempPrefix);
      calls := calls + [MakeTempDir(prefix)];
      ghost var e1 := e.(calls := e.calls + [MakeTempDir(prefix)]);
      var made := w.mkdtemp(prefix);
      if made.Err? {
        unhandled := CatchStage(made.error, res, e1, c0, l0, m0);
        return;
      }
      unhandled := FramesStage(w, q, res, bundled, video, prefix + made.value, e1, c0, l0, m0);
    }

    method FramesStage(w: World, q: Query, res: Response, bundled: Path, video: Composition, tmpDir: Path,
                       ghost e: Effects, ghost c0: seq<Call>, ghost l0: seq<LogEntry>, ghost m0: map<string, Path>)
      returns (unhandled: Option<Error>)
      requires Shows(e, c0, l0, m0, res) && e.cacheWrite.None? && e.sends == [] && e.unhandled.None?
      modifies this, res
      ensures Shows(Frames(w, q, res.strict, e, bundled, video, tmpDir), c0, l0, m0, res)
      ensures unhandled == Frames(w, q, res.strict, e, bundled, video, tmpDir).unhandled
    {
      var frames := FramesJob(video, bundled, tmpDir, q, CompositionId, "jpeg");
      calls := calls + [RenderFrames(frames)];
      var run := w.renderFrames(frames);
      log := log + ProgressEntries(run.events);
      ghost var e2 := e.(calls := e.calls + [RenderFrames(frames)], log := e.log + ProgressEntries(run.events));
      if run.outcome.Err? {
        unhandled := CatchStage(run.outcome.error, res, e2, c0, l0, m0);
        return;
      }
      unhandled := EncodeStage(w, q, res, bundled, video, tmpDir, run.outcome.value, e2, c0, l0, m0);
    }

    method EncodeStage(w: World, q: Query, res: Response, bundled: Path, video: Composition, tmpDir: Path, assets: AssetsInfo,
                       ghost e: Effects, ghost c0: seq<Call>, ghost l0: seq<LogEntry>, ghost m0: map<string, Path>)
      returns (unhandled: Option<Error>)
      requires Shows(e, c0, l0, m0, res) && e.cacheWrite.None? && e.sends == [] && e.unhandled.None?
      modifies this, res
      ensures Shows(Encode(w, q, res.strict, e, bundled, video, tmpDir, assets), c0, l0, m0, res)
      ensures unhandled == Encode(w, q, res.strict, e, bundled, video, tmpDir, assets).unhandled
    {
      var finalOutput := Join(tmpDir, VideoFile);
      var stitch := StitchJob(tmpDir, true, video.fps, video.height, video.width, finalOutput, "jpeg", assets);
      calls := calls + [Stitch(stitch)];
      ghost var e3 := e.(calls := e.calls + [Stitch(stitch)]);
      var stitched := w.stitchFramesToVideo(stitch);
      if stitched.Err? {
        unhandled := CatchStage(stitched.error, res, e3, c0, l0, m0);
        return;
      }
      unhandled := StillStage(w, q, res, bundled, video, tmpDir, e3, c0, l0, m0);
    }

    method StillStage(w: World, q: Query, res: Response, bundled: Path, video: Composition, tmpDir: Path,
                      ghost e: Effects, ghost c0: seq<Call>, ghost l0: seq<LogEntry>, ghost m0: map<string, Path>)
      returns (unhandled: Option<Error>)
      requires Shows(e, c0, l0, m0, res) && e.cacheWrite.None? && e.sends == [] && e.unhandled.None?
      modifies this, res
      ensures Shows(Still(w, q, res.strict, e, bundled, video, tmpDir), c0, l0, m0, res)
      ensures unhandled == Still(w, q, res.strict, e, bundled, video, tmpDir).unhandled
    {
      var stillOutput := Join(tmpDir, StillFile);
      log := log + [Line(StillLine)];
      var still := StillJob(video, bundled, stillOutput, q, "png");
      calls := calls + [RenderStill(still)];
      ghost var e4 := e.(calls := e.calls + [RenderStill(still)], log := e.log + [Line(StillLine)]);
      var rendered := w.renderStill(still);
      if rendered.Err? {
        unhandled := CatchStage(rendered.error, res, e4, c0, l0, m0);
      } else {
        unhandled := ImageStage(w, q, res, tmpDir, e4, c0, l0, m0);
      }
    }

    /** The image upload: `.then` fills in the image URL, `.catch` logs and sends the error. */
    method ImageStage(w: World, q: Query, res: Response, tmpDir: Path,
                      ghost e: Effects, ghost c0: seq<Call>, ghost l0: seq<LogEntry>, ghost m0: map<string, Path>)
      returns (unhandled: Option<Error>)
      requires Shows(e, c0, l0, m0, res) && e.cacheWrite.None? && e.unhandled.None?
      modifies this, res
      ensures Shows(PublishImage(w, q, res.strict, e, tmpDir), c0, l0, m0, res)
      ensures unhandled == PublishImage(w, q, res.strict, e, tmpDir).unhandled
    {
      var file := Join(tmpDir, StillFile);
      calls := calls + [Pin(PinUrl, file)];
      ghost var e1 := e.(calls := e.calls + [Pin(PinUrl, file)]);
      var pinned := w.pinFile(PinUrl, file);
      if pinned.Ok? {
        unhandled := VideoStage(w, q, res, tmpDir, MediaUrl + pinned.value, e1, c0, l0, m0);
      } else {
        log := log + [Logged(pinned.error)];
        var thrown := res.Json(ErrorBody(pinned.error));
        ghost var e2 := e1.(log := e1.log + [Logged(pinned.error)], sends := e1.sends + [ErrorBody(pinned.error)]);
        if thrown.Some? {
          unhandled := CatchStage(thrown.value, res, e2, c0, l0, m0);
        } else {
          unhandled := VideoStage(w, q, res, tmpDir, "", e2, c0, l0, m0);
        }
      }
    }

    /** The video upload: `.then` writes the cache and fills in the video URL; then the final send. */
    method VideoStage(w: World, q: Query, res: Response, tmpDir: Path, image: string,
                      ghost e: Effects, ghost c0: seq<Call>, ghost l0: seq<LogEntry>, ghost m0: map<string, Path>)
      returns (unhandled: Option<Error>)
      requires Shows(e, c0, l0, m0, res) && e.cacheWrite.None? && e.unhandled.None?
      modifies this, res
      ensures Shows(PublishVideo(w, q, res.strict, e, tmpDir, image), c0, l0, m0, res)
      ensures unhandled == PublishVideo(w, q, res.strict, e, tmpDir, image).unhandled
    {
      var file := Join(tmpDir, VideoFile);
      calls := calls + [Pin(PinUrl, file)];
      ghost var e1 := e.(calls := e.calls + [Pin(PinUrl, file)]);
      var pinned := w.pinFile(PinUrl, file);
      if pinned.Ok? {
        cache := cache[Stringify(q) := Join(tmpDir, VideoFile)];
        log := log + [PinData(pinned.value), Line(VideoDoneLine)];
        ghost var e2 := e1.(cacheWrite := Some((Stringify(q), Join(tmpDir, VideoFile))),
                            log := e1.log + [PinData(pinned.value), Line(VideoDoneLine)]);
        unhandled := RespondStage(MediaBody(image, MediaUrl + pinned.value), res, e2, c0, l0, m0);
      } else {
        log := log + [Logged(pinned.error)];
        var thrown := res.Json(ErrorBody(pinned.error));
        ghost var e2 := e1.(log := e1.log + [Logged(pinned.error)], sends := e1.sends + [ErrorBody(pinned.error)]);
        if thrown.Some? {
          unhandled := CatchStage(thrown.value, res, e2, c0, l0, m0);
        } else {
          unhandled := RespondStage(MediaBody(image, ""), res, e2, c0, l0, m0);
        }
      }
    }
  }
}
