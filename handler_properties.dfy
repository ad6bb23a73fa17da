/**
 * What one request of the handler does, proved about `Handler.Run` and
 * therefore about `Handler.Server.HandleRequest`, which is proved to do
 * what `Run` describes.
 */
module HandlerProperties {
  import opened Results
  import opened Paths
  import opened JsonKey
  import opened Handler

  datatype Stage = Bundling | ListingCompositions | MakingTempDir | RenderingFrames | Stitching | RenderingStill | Uploading

  function StageOf(c: Call): Stage
  {
    match c
    case Bundle(_) => Bundling
    case GetCompositions(_, _) => ListingCompositions
    case MakeTempDir(_) => MakingTempDir
    case RenderFrames(_) => RenderingFrames
    case Stitch(_) => Stitching
    case RenderStill(_) => RenderingStill
    case Pin(_, _) => Uploading
  }

  /** The stages of a request that runs to the end, in order: the image upload, then the video upload. */
  const Pipeline: seq<Stage> :=
    [Bundling, ListingCompositions, MakingTempDir, RenderingFrames, Stitching, RenderingStill, Uploading, Uploading]

  /** Whether the handler goes on after call `c`: the stage returned (and, for the listing, a 'Scene' exists). */
  predicate Proceeds(w: World, c: Call)
  {
    match c
    case Bundle(p) => w.bundle(p).Ok?
    case GetCompositions(b, q) => w.getCompositions(b, q).Ok? && Find(w.getCompositions(b, q).value, CompositionId).Some?
    case MakeTempDir(p) => w.mkdtemp(p).Ok?
    case RenderFrames(job) => w.renderFrames(job).outcome.Ok?
    case Stitch(job) => w.stitchFramesToVideo(job).Ok?
    case RenderStill(job) => w.renderStill(job).Ok?
    case Pin(_, _) => true
  }

  /** The public URL for an upload: the gateway followed by the hash, or '' when it failed. */
  function UrlOf(r: Result<string, Error>): string
  {
    if r.Ok? then MediaUrl + r.value else ""
  }

  function ErrorsOf(r: Result<string, Error>): seq<Body>
  {
    if r.Err? then [ErrorBody(r.error)] else []
  }

  /** The answer the pinning service gave to call `c`. */
  function PinResult(w: World, c: Call): Result<string, Error>
    requires c.Pin?
  {
    w.pinFile(c.endpoint, c.file)
  }

  /** The bodies sent once both uploads ran, for image result `img` and video result `vid`. */
  function UploadSends(strict: bool, img: Result<string, Error>, vid: Result<string, Error>): seq<Body>
  {
    var media := MediaBody(UrlOf(img), UrlOf(vid));
    if !strict then ErrorsOf(img) + ErrorsOf(vid) + [media]
    else if img.Err? && vid.Err? then [ErrorBody(img.error), ErrorBody(vid.error), ErrorBody(HeadersSentError)]
    else if img.Err? || vid.Err? then ErrorsOf(img) + ErrorsOf(vid) + [media, ErrorBody(HeadersSentError)]
    else [media]
  }

  /** The only media body among the upload sends is the one built from both answers. */
  lemma UploadSendsMedia(strict: bool, img: Result<string, Error>, vid: Result<string, Error>)
    ensures forall b <- UploadSends(strict, img, vid) :: b.MediaBody? ==> b == MediaBody(UrlOf(img), UrlOf(vid))
  {
    var s := UploadSends(strict, img, vid);
    var media := MediaBody(UrlOf(img), UrlOf(vid));
    forall b | b in s && b.MediaBody?
      ensures b == media
    {
      assert b !in ErrorsOf(img) && b !in ErrorsOf(vid);
    }
  }

  // -----------------------------------------------------------------------
  // How a run is built, stage by stage

  /** The calls so far are the first stages of the pipeline, and each one let the handler go on. */
  ghost predicate Continuing(w: World, c: seq<Call>)
  {
    |c| <= |Pipeline| &&
    (forall i | 0 <= i < |c| :: StageOf(c[i]) == Pipeline[i]) &&
    (forall i | 0 <= i < |c| :: Proceeds(w, c[i]))
  }

  lemma ContinuingSnoc(w: World, c: seq<Call>, x: Call)
    requires Continuing(w, c) && |c| < |Pipeline|
    requires StageOf(x) == Pipeline[|c|] && Proceeds(w, x)
    ensures Continuing(w, c + [x])
  {
  }

  lemma ContinuingTempDir(w: World, c: seq<Call>, prefix: Path)
    requires Continuing(w, c) && |c| == 2 && w.mkdtemp(prefix).Ok?
    ensures Continuing(w, c + [MakeTempDir(prefix)])
  {
    ContinuingSnoc(w, c, MakeTempDir(prefix));
  }

  /** Each call receives what the calls before it produced. */
  ghost predicate Wired(w: World, q: Query, c: seq<Call>)
  {
    |c| > 0 && c[0] == Bundle(Join(w.appDir, EntryPoint)) &&
    (|c| > 1 ==> w.bundle(c[0].entryPoint).Ok? && c[1] == GetCompositions(w.bundle(c[0].entryPoint).value, q)) &&
    (|c| > 2 ==> c[2] == MakeTempDir(Join(w.osTmpDir, TempPrefix))) &&
    (|c| > 3 ==> c[1].GetCompositions? && c[3].RenderFrames? &&
                 w.mkdtemp(c[2].prefix).Ok? && c[3].frames.outputDir == c[2].prefix + w.mkdtemp(c[2].prefix).value &&
                 w.getCompositions(c[1].bundleDir, q).Ok? &&
                 Find(w.getCompositions(c[1].bundleDir, q).value, CompositionId) == Some(c[3].frames.config) &&
                 c[3].frames == FramesJob(c[3].frames.config, c[1].bundleDir, c[3].frames.outputDir, q, CompositionId, "jpeg")) &&
    (|c| > 4 ==> c[4].Stitch? &&
                 w.renderFrames(c[3].frames).outcome == Ok(c[4].stitch.assetsInfo) &&
                 var v, tmp := c[3].frames.config, c[3].frames.outputDir;
                 c[4].stitch == StitchJob(tmp, true, v.fps, v.height, v.width, Join(tmp, VideoFile), "jpeg", c[4].stitch.assetsInfo)) &&
    (|c| > 5 ==> c[5] == RenderStill(StillJob(c[3].frames.config, c[1].bundleDir, Join(c[3].frames.outputDir, StillFile), q, "png"))) &&
    (|c| > 6 ==> c[6] == Pin(PinUrl, Join(c[3].frames.outputDir, StillFile))) &&
    (|c| > 7 ==> c[7] == Pin(PinUrl, Join(c[3].frames.outputDir, VideoFile)))
  }

  // Each stage extends the wiring by its own call.

  lemma WiredTempDir(w: World, q: Query, c: seq<Call>)
    requires |c| == 2 && Wired(w, q, c)
    ensures Wired(w, q, c + [MakeTempDir(Join(w.osTmpDir, TempPrefix))])
  {
  }

  lemma WiredFrames(w: World, q: Query, c: seq<Call>, bundled: Path, video: Composition, tmp: Path)
    requires |c| == 3 && Wired(w, q, c) && c[1] == GetCompositions(bundled, q)
    requires w.getCompositions(bundled, q).Ok? && Find(w.getCompositions(bundled, q).value, CompositionId) == Some(video)
    requires w.mkdtemp(c[2].prefix).Ok? && tmp == c[2].prefix + w.mkdtemp(c[2].prefix).value
    ensures Wired(w, q, c + [RenderFrames(FramesJob(video, bundled, tmp, q, CompositionId, "jpeg"))])
  {
  }

  lemma WiredStitch(w: World, q: Query, c: seq<Call>, video: Composition, tmp: Path, assets: AssetsInfo)
    requires |c| == 4 && Wired(w, q, c) && c[3].frames.config == video && c[3].frames.outputDir == tmp
    requires w.renderFrames(c[3].frames).outcome == Ok(assets)
    ensures Wired(w, q, c + [Stitch(StitchJob(tmp, true, video.fps, video.height, video.width, Join(tmp, VideoFile), "jpeg", assets))])
  {
  }

  lemma WiredStill(w: World, q: Query, c: seq<Call>, bundled: Path, video: Composition, tmp: Path)
    requires |c| == 5 && Wired(w, q, c) && c[3].frames == FramesJob(video, bundled, tmp, q, CompositionId, "jpeg")
    ensures Wired(w, q, c + [RenderStill(StillJob(video, bundled, Join(tmp, StillFile), q, "png"))])
  {
  }

  lemma WiredUpload(w: World, q: Query, c: seq<Call>, file: string)
    requires (|c| == 6 && file == StillFile) || (|c| == 7 && file == VideoFile)
    requires Wired(w, q, c)
    ensures Wired(w, q, c + [Pin(PinUrl, Join(c[3].frames.outputDir, file))])
  {
  }

  /** The calls of a finished run: a prefix of the pipeline that stops at the first stage that failed. */
  ghost predicate Trace(w: World, q: Query, c: seq<Call>)
  {
    1 <= |c| <= |Pipeline| && |c| != 7 && Wired(w, q, c) &&
    (forall i | 0 <= i < |c| :: StageOf(c[i]) == Pipeline[i]) &&
    (forall i | 0 <= i < |c| - 1 :: Proceeds(w, c[i])) &&
    (|c| < |Pipeline| ==> !Proceeds(w, c[|c| - 1]))
  }

  /** What a run stopped early leaves behind: one error body, the one it logged last. */
  ghost predicate Stopped(r: Effects)
  {
    |r.log| > 0 && r.log[|r.log| - 1].ErrorLogged? &&
    r.sends == [ErrorBody(r.log[|r.log| - 1].thrown)] && r.cacheWrite.None? && r.unhandled.None?
  }

  /** What the two uploads leave behind, for image result `img` and video result `vid` on `file`. */
  ghost predicate Uploaded(q: Query, strict: bool, r: Effects, img: Result<string, Error>, vid: Result<string, Error>, file: Path)
  {
    r.cacheWrite == (if vid.Ok? then Some((Stringify(q), file)) else None) &&
    r.sends == UploadSends(strict, img, vid) &&
    r.unhandled == (if strict && (img.Err? || vid.Err?) then Some(HeadersSentError) else None)
  }

  /** What is true of a finished run. */
  ghost predicate Shaped(w: World, q: Query, strict: bool, r: Effects)
  {
    Trace(w, q, r.calls) &&
    (|r.calls| < |Pipeline| ==> Stopped(r)) &&
    (|r.calls| == |Pipeline| ==>
      r.calls[6].Pin? && r.calls[7].Pin? &&
      Uploaded(q, strict, r, PinResult(w, r.calls[6]), PinResult(w, r.calls[7]), r.calls[7].file))
  }

  /** The state before a stage: nothing sent or cached yet. */
  ghost predicate Fresh(e: Effects)
  {
    e.sends == [] && e.cacheWrite.None? && e.unhandled.None?
  }

  /** The calls of a run that stops at call `x`, after calls `c` that all went on. */
  lemma TraceStops(w: World, q: Query, c: seq<Call>, x: Call)
    requires |c| < 6 && Continuing(w, c) && StageOf(x) == Pipeline[|c|] && !Proceeds(w, x)
    requires Wired(w, q, c + [x])
    ensures Trace(w, q, c + [x])
  {
    var d := c + [x];
    forall i | 0 <= i < |d|
      ensures StageOf(d[i]) == Pipeline[i] && (i < |c| ==> Proceeds(w, d[i]))
    {
      if i < |c| { assert d[i] == c[i]; } else { assert d[i] == x; }
    }
    assert d[|d| - 1] == x;
  }

  /** The calls of a run that reaches the video upload `x`. */
  lemma TraceEnds(w: World, q: Query, c: seq<Call>, x: Call)
    requires |c| == 7 && Continuing(w, c) && StageOf(x) == Pipeline[7]
    requires Wired(w, q, c + [x])
    ensures Trace(w, q, c + [x])
  {
    assert forall i | 0 <= i < |c| :: (c + [x])[i] == c[i];
  }

  /** A stage that throws: call `x` after the calls `c` that all went on. */
  lemma CatchShaped(w: World, q: Query, strict: bool, e: Effects, c: seq<Call>, x: Call, err: Error)
    requires Fresh(e) && e.calls == c + [x] && |c| < 6 && Wired(w, q, e.calls)
    requires Continuing(w, c) && StageOf(x) == Pipeline[|c|] && !Proceeds(w, x)
    ensures Shaped(w, q, strict, Catch(e, err, strict))
  {
    TraceStops(w, q, c, x);
  }

  /** The video upload, after the image upload answered `img`. */
  lemma VideoOutcome(w: World, q: Query, strict: bool, e: Effects, tmp: Path, img: Result<string, Error>)
    requires e.cacheWrite.None? && e.unhandled.None? && e.sends == ErrorsOf(img)
    ensures var r := PublishVideo(w, q, strict, e, tmp, UrlOf(img));
      r.calls == e.calls + [Pin(PinUrl, Join(tmp, VideoFile))] &&
      Uploaded(q, strict, r, img, w.pinFile(PinUrl, Join(tmp, VideoFile)), Join(tmp, VideoFile))
  {
    var vid := w.pinFile(PinUrl, Join(tmp, VideoFile));
    var r := PublishVideo(w, q, strict, e, tmp, UrlOf(img));
    assert r.sends == UploadSends(strict, img, vid);
  }

  /** A run whose last call is the video upload `x`, after calls `c`. */
  lemma ShapedEnds(w: World, q: Query, strict: bool, r: Effects, c: seq<Call>, x: Call)
    requires r.calls == c + [x] && |c| == 7 && Continuing(w, c) && x.Pin? && Wired(w, q, r.calls)
    requires c[6].Pin? && Uploaded(q, strict, r, PinResult(w, c[6]), PinResult(w, x), x.file)
    ensures Shaped(w, q, strict, r)
  {
    TraceEnds(w, q, c, x);
    assert r.calls[6] == c[6] && r.calls[7] == x;
  }

  lemma VideoShaped(w: World, q: Query, strict: bool, e: Effects, tmp: Path, img: Result<string, Error>)
    requires e.cacheWrite.None? && e.unhandled.None? && |e.calls| == 7 && Wired(w, q, e.calls)
    requires Continuing(w, e.calls)
    requires tmp == e.calls[3].frames.outputDir && e.calls[6].Pin? && img == PinResult(w, e.calls[6])
    requires e.sends == ErrorsOf(img)
    ensures Shaped(w, q, strict, PublishVideo(w, q, strict, e, tmp, UrlOf(img)))
  {
    var x := Pin(PinUrl, Join(tmp, VideoFile));
    VideoOutcome(w, q, strict, e, tmp, img);
    WiredUpload(w, q, e.calls, VideoFile);
    ShapedEnds(w, q, strict, PublishVideo(w, q, strict, e, tmp, UrlOf(img)), e.calls, x);
  }

  /** The effects after the image upload answered `img`: its error, if any, logged and sent. */
  function AfterImage(e: Effects, img: Result<string, Error>): (r: Effects)
    ensures r.calls == e.calls && r.cacheWrite == e.cacheWrite && r.unhandled == e.unhandled
    ensures r.sends == e.sends + ErrorsOf(img)
  {
    if img.Ok? then e else e.(log := e.log + [Logged(img.error)], sends := e.sends + [ErrorBody(img.error)])
  }

  /** Nothing was sent before the image upload, so its failure never throws and the video upload follows. */
  lemma ImageThenVideo(w: World, q: Query, strict: bool, e: Effects, tmp: Path)
    requires e.sends == []
    ensures var e1 := e.(calls := e.calls + [Pin(PinUrl, Join(tmp, StillFile))]);
      var img := w.pinFile(PinUrl, Join(tmp, StillFile));
      PublishImage(w, q, strict, e, tmp) == PublishVideo(w, q, strict, AfterImage(e1, img), tmp, UrlOf(img))
  {
  }

  lemma ImageShaped(w: World, q: Query, strict: bool, e: Effects, tmp: Path)
    requires Fresh(e) && |e.calls| == 6 && Continuing(w, e.calls) && Wired(w, q, e.calls)
    requires tmp == e.calls[3].frames.outputDir
    ensures Shaped(w, q, strict, PublishImage(w, q, strict, e, tmp))
  {
    var c := Pin(PinUrl, Join(tmp, StillFile));
    var e1 := e.(calls := e.calls + [c]);
    WiredUpload(w, q, e.calls, StillFile);
    ContinuingSnoc(w, e.calls, c);
    assert e1.calls[6] == c && e1.calls[3] == e.calls[3];
    var img := w.pinFile(PinUrl, Join(tmp, StillFile));
    var e2 := AfterImage(e1, img);
    assert e2.sends == ErrorsOf(img);
    ImageThenVideo(w, q, strict, e, tmp);
    VideoShaped(w, q, strict, e2, tmp, img);
  }

  lemma StillShaped(w: World, q: Query, strict: bool, e3: Effects, bundled: Path, video: Composition, tmp: Path)
    requires Fresh(e3) && |e3.calls| == 5 && Continuing(w, e3.calls) && Wired(w, q, e3.calls)
    requires e3.calls[3].frames == FramesJob(video, bundled, tmp, q, CompositionId, "jpeg")
    ensures Shaped(w, q, strict, Still(w, q, strict, e3, bundled, video, tmp))
  {
    var still := StillJob(video, bundled, Join(tmp, StillFile), q, "png");
    var e4 := e3.(calls := e3.calls + [RenderStill(still)], log := e3.log + [Line(StillLine)]);
    WiredStill(w, q, e3.calls, bundled, video, tmp);
    match w.renderStill(still)
    case Err(err) =>
      CatchShaped(w, q, strict, e4, e3.calls, RenderStill(still), err);
    case Ok(_) =>
      ContinuingSnoc(w, e3.calls, RenderStill(still));
      ImageShaped(w, q, strict, e4, tmp);
  }

  lemma EncodeShaped(w: World, q: Query, strict: bool, e: Effects, bundled: Path, video: Composition, tmp: Path, assets: AssetsInfo)
    requires Fresh(e) && |e.calls| == 4 && Continuing(w, e.calls) && Wired(w, q, e.calls)
    requires e.calls[3] == RenderFrames(FramesJob(video, bundled, tmp, q, CompositionId, "jpeg"))
    requires w.renderFrames(e.calls[3].frames).outcome == Ok(assets)
    ensures Shaped(w, q, strict, Encode(w, q, strict, e, bundled, video, tmp, assets))
  {
    var stitch := StitchJob(tmp, true, video.fps, video.height, video.width, Join(tmp, VideoFile), "jpeg", assets);
    var e3 := e.(calls := e.calls + [Stitch(stitch)]);
    WiredStitch(w, q, e.calls, video, tmp, assets);
    match w.stitchFramesToVideo(stitch)
    case Err(err) =>
      CatchShaped(w, q, strict, e3, e.calls, Stitch(stitch), err);
    case Ok(_) =>
      ContinuingSnoc(w, e.calls, Stitch(stitch));
      StillShaped(w, q, strict, e3, bundled, video, tmp);
  }

  lemma FramesShaped(w: World, q: Query, strict: bool, e1: Effects, bundled: Path, video: Composition, tmp: Path)
    requires Fresh(e1) && |e1.calls| == 3 && Continuing(w, e1.calls) && Wired(w, q, e1.calls)
    requires e1.calls[1] == GetCompositions(bundled, q)
    requires Find(w.getCompositions(bundled, q).value, CompositionId) == Some(video)
    requires w.mkdtemp(e1.calls[2].prefix).Ok? && tmp == e1.calls[2].prefix + w.mkdtemp(e1.calls[2].prefix).value
    ensures Shaped(w, q, strict, Frames(w, q, strict, e1, bundled, video, tmp))
  {
    var frames := FramesJob(video, bundled, tmp, q, CompositionId, "jpeg");
    var run := w.renderFrames(frames);
    var e2 := e1.(calls := e1.calls + [RenderFrames(frames)], log := e1.log + ProgressEntries(run.events));
    WiredFrames(w, q, e1.calls, bundled, video, tmp);
    match run.outcome
    case Err(err) =>
      CatchShaped(w, q, strict, e2, e1.calls, RenderFrames(frames), err);
    case Ok(assets) =>
      ContinuingSnoc(w, e1.calls, RenderFrames(frames));
      EncodeShaped(w, q, strict, e2, bundled, video, tmp, assets);
  }

  lemma ProduceShaped(w: World, q: Query, strict: bool, e: Effects, bundled: Path, video: Composition)
    requires Fresh(e) && |e.calls| == 2 && Continuing(w, e.calls) && Wired(w, q, e.calls)
    requires e.calls[1] == GetCompositions(bundled, q)
    requires Find(w.getCompositions(bundled, q).value, CompositionId) == Some(video)
    ensures Shaped(w, q, strict, Produce(w, q, strict, e, bundled, video))
  {
    var prefix := Join(w.osTmpDir, TempPrefix);
    WiredTempDir(w, q, e.calls);
    match w.mkdtemp(prefix)
    case Err(err) =>
      TempDirFailed(w, q, strict, e, bundled, video, prefix, err);
    case Ok(suffix) =>
      MadeTempDir(w, q, strict, e, bundled, video, prefix, suffix);
  }

  /** `Produce` when `mkdtemp` throws `err`. */
  lemma TempDirFailed(w: World, q: Query, strict: bool, e: Effects, bundled: Path, video: Composition, prefix: Path, err: Error)
    requires Fresh(e) && |e.calls| == 2 && Continuing(w, e.calls) && Wired(w, q, e.calls + [MakeTempDir(prefix)])
    requires prefix == Join(w.osTmpDir, TempPrefix) && w.mkdtemp(prefix) == Err(err)
    ensures Shaped(w, q, strict, Produce(w, q, strict, e, bundled, video))
  {
    var e1 := e.(calls := e.calls + [MakeTempDir(prefix)]);
    assert Produce(w, q, strict, e, bundled, video) == Catch(e1, err, strict);
    CatchShaped(w, q, strict, e1, e.calls, MakeTempDir(prefix), err);
  }

  /** `Produce` once `mkdtemp` has answered with `suffix`. */
  lemma MadeTempDir(w: World, q: Query, strict: bool, e: Effects, bundled: Path, video: Composition, prefix: Path, suffix: string)
    requires Fresh(e) && |e.calls| == 2 && Continuing(w, e.calls) && Wired(w, q, e.calls + [MakeTempDir(prefix)])
    requires e.calls[1] == GetCompositions(bundled, q)
    requires Find(w.getCompositions(bundled, q).value, CompositionId) == Some(video)
    requires prefix == Join(w.osTmpDir, TempPrefix) && w.mkdtemp(prefix) == Ok(suffix)
    ensures Shaped(w, q, strict, Produce(w, q, strict, e, bundled, video))
  {
    var e1 := e.(calls := e.calls + [MakeTempDir(prefix)]);
    ContinuingTempDir(w, e.calls, prefix);
    FramesShaped(w, q, strict, e1, bundled, video, prefix + suffix);
    assert Produce(w, q, strict, e, bundled, video) == Frames(w, q, strict, e1, bundled, video, prefix + suffix);
  }

  lemma CompositionsShaped(w: World, q: Query, strict: bool, e: Effects, bundled: Path)
    requires Fresh(e) && e.calls == [Bundle(Join(w.appDir, EntryPoint))] && w.bundle(e.calls[0].entryPoint) == Ok(bundled)
    ensures Shaped(w, q, strict, LoadCompositions(w, q, strict, e, bundled))
  {
    var x := GetCompositions(bundled, q);
    var e1 := e.(calls := e.calls + [x]);
    assert Wired(w, q, e1.calls);
    assert Continuing(w, e.calls);
    match w.getCompositions(bundled, q)
    case Err(err) =>
      CatchShaped(w, q, strict, e1, e.calls, x, err);
    case Ok(comps) =>
      match Find(comps, CompositionId)
      case None =>
        CatchShaped(w, q, strict, e1, e.calls, x, NoVideoError);
      case Some(video) =>
        ContinuingSnoc(w, e.calls, x);
        ProduceShaped(w, q, strict, e1, bundled, video);
  }

  /** Every run has the shape described by `Shaped`. */
  lemma RunShaped(w: World, q: Query, strict: bool)
    ensures Shaped(w, q, strict, Run(w, q, strict))
  {
    var entry := Join(w.appDir, EntryPoint);
    var e := Effects([Bundle(entry)], [], [], None, None);
    match w.bundle(entry)
    case Err(err) =>
      assert e.calls == [] + [Bundle(entry)];
      CatchShaped(w, q, strict, e, [], Bundle(entry), err);
    case Ok(bundled) =>
      CompositionsShaped(w, q, strict, e, bundled);
  }

  // -----------------------------------------------------------------------
  // Properties of one request

  /** Stages run strictly in pipeline order, and a throw in any stage before the uploads ends the run there. */
  lemma StagesRunInOrder(w: World, q: Query, strict: bool)
    ensures var calls := Run(w, q, strict).calls;
      1 <= |calls| <= |Pipeline| && |calls| != 7 &&
      (forall i | 0 <= i < |calls| :: StageOf(calls[i]) == Pipeline[i]) &&
      (forall i | 0 <= i < |calls| - 1 :: Proceeds(w, calls[i])) &&
      (|calls| < |Pipeline| ==> !Proceeds(w, calls[|calls| - 1]))
  {
    RunShaped(w, q, strict);
  }

  /** Without a composition called 'Scene' the handler sends the error and renders, uploads and caches nothing. */
  lemma MissingSceneStopsEarly(w: World, q: Query, strict: bool)
    requires w.bundle(Join(w.appDir, EntryPoint)).Ok?
    requires var b := w.bundle(Join(w.appDir, EntryPoint)).value;
      w.getCompositions(b, q).Ok? && Find(w.getCompositions(b, q).value, CompositionId).None?
    ensures var b := w.bundle(Join(w.appDir, EntryPoint)).value;
      Run(w, q, strict) == Effects([Bundle(Join(w.appDir, EntryPoint)), GetCompositions(b, q)],
                                   [ErrorLogged(NoVideoError)], [ErrorBody(NoVideoError)], None, None)
  {
  }

  /** A run that stops before the uploads sends exactly one body, the error it logged last, and writes no cache entry. */
  lemma EarlyFailureSendsOneError(w: World, q: Query, strict: bool)
    ensures var e := Run(w, q, strict);
      |e.calls| < |Pipeline| ==>
        |e.log| > 0 && e.log[|e.log| - 1].ErrorLogged? &&
        e.sends == [ErrorBody(e.log[|e.log| - 1].thrown)] && e.cacheWrite.None? && e.unhandled.None?
  {
    RunShaped(w, q, strict);
  }

  /** Each stage gets the outputs of the ones before it; the uploads read exactly the files the stitcher and the still renderer wrote. */
  lemma StagesShareOneWorkspace(w: World, q: Query, strict: bool)
    ensures var c := Run(w, q, strict).calls;
      |c| >= 1 && c[0] == Bundle(Join(w.appDir, EntryPoint)) &&
      (|c| > 1 ==> w.bundle(c[0].entryPoint).Ok? && c[1] == GetCompositions(w.bundle(c[0].entryPoint).value, q)) &&
      (|c| > 2 ==> c[2] == MakeTempDir(Join(w.osTmpDir, TempPrefix))) &&
      (|c| > 3 ==> c[3].RenderFrames? && w.mkdtemp(c[2].prefix).Ok? &&
                   c[3].frames.outputDir == c[2].prefix + w.mkdtemp(c[2].prefix).value &&
                   c[3].frames.inputProps == q && c[3].frames.compositionId == CompositionId &&
                   c[3].frames.config.id == CompositionId && c[3].frames.webpackBundle == c[1].bundleDir) &&
      (|c| > 4 ==> c[4].Stitch? && c[4].stitch.dir == c[3].frames.outputDir &&
                   c[4].stitch.outputLocation == Join(c[3].frames.outputDir, VideoFile) &&
                   w.renderFrames(c[3].frames).outcome == Ok(c[4].stitch.assetsInfo) &&
                   c[4].stitch.fps == c[3].frames.config.fps &&
                   c[4].stitch.width == c[3].frames.config.width && c[4].stitch.height == c[3].frames.config.height) &&
      (|c| > 5 ==> c[5].RenderStill? && c[5].still.output == Join(c[3].frames.outputDir, StillFile) &&
                   c[5].still.composition == c[3].frames.config && c[5].still.inputProps == q) &&
      (|c| == 8 ==> c[6] == Pin(PinUrl, c[5].still.output) && c[7] == Pin(PinUrl, c[4].stitch.outputLocation))
  {
    RunShaped(w, q, strict);
  }

  /** Every media body carries, per field, the gateway URL of that upload or '' — each independent of the other upload. */
  lemma ResponseFieldsFollowUploads(w: World, q: Query, strict: bool)
    ensures var e := Run(w, q, strict);
      forall b <- e.sends :: b.MediaBody? ==>
        |e.calls| == 8 && e.calls[6].Pin? && e.calls[7].Pin? &&
        b.image == UrlOf(PinResult(w, e.calls[6])) && b.video == UrlOf(PinResult(w, e.calls[7]))
  {
    RunShaped(w, q, strict);
    var e := Run(w, q, strict);
    if |e.calls| == 8 {
      UploadSendsMedia(strict, PinResult(w, e.calls[6]), PinResult(w, e.calls[7]));
    }
  }

  /** The cache gains the entry `JSON.stringify(query) -> out.mp4` exactly when the video upload succeeds. */
  lemma CacheWrittenIffVideoPinned(w: World, q: Query, strict: bool)
    ensures var e := Run(w, q, strict);
      (e.cacheWrite.Some? <==> |e.calls| == 8 && e.calls[7].Pin? && PinResult(w, e.calls[7]).Ok?) &&
      (e.cacheWrite.Some? ==>
        |e.calls| == 8 && e.calls[4].Stitch? && e.cacheWrite.value == (Stringify(q), e.calls[4].stitch.outputLocation))
  {
    RunShaped(w, q, strict);
    StagesShareOneWorkspace(w, q, strict);
  }

  /** The bodies sent once both uploads ran: each failed upload sends its error first, then `jsonResponse` follows. */
  lemma UploadResponses(w: World, q: Query, strict: bool)
    requires |Run(w, q, strict).calls| == 8
    ensures var e := Run(w, q, strict);
      e.calls[6].Pin? && e.calls[7].Pin? &&
      var img := PinResult(w, e.calls[6]);
      var vid := PinResult(w, e.calls[7]);
      var media := MediaBody(UrlOf(img), UrlOf(vid));
      if !strict then
        e.sends == ErrorsOf(img) + ErrorsOf(vid) + [media] && e.unhandled.None?
      else if img.Err? && vid.Err? then
        e.sends == [ErrorBody(img.error), ErrorBody(vid.error), ErrorBody(HeadersSentError)] &&
        e.unhandled == Some(HeadersSentError)
      else if img.Err? || vid.Err? then
        e.sends == ErrorsOf(img) + ErrorsOf(vid) + [media, ErrorBody(HeadersSentError)] &&
        e.unhandled == Some(HeadersSentError)
      else
        e.sends == [media] && e.unhandled.None?
  {
    RunShaped(w, q, strict);
  }

  /** More than one body is sent exactly when the uploads ran and one of them failed. */
  lemma SeveralSendsIffUploadFailed(w: World, q: Query, strict: bool)
    ensures var e := Run(w, q, strict);
      |e.sends| >= 1 &&
      (|e.sends| > 1 <==>
        |e.calls| == 8 && e.calls[6].Pin? && e.calls[7].Pin? &&
        (PinResult(w, e.calls[6]).Err? || PinResult(w, e.calls[7]).Err?))
  {
    RunShaped(w, q, strict);
  }

  /** Under Express the client receives exactly one body: the first one sent. */
  lemma ClientReceivesFirstBody(w: World, q: Query)
    ensures var e := Run(w, q, true);
      |e.sends| >= 1 && Delivered(e.sends, true) == [e.sends[0]]
  {
    SeveralSendsIffUploadFailed(w, q, true);
  }

  /** Under Express, a failed image upload means the client gets that error, not the video URL, even when the video upload succeeds. */
  lemma ImageFailureHidesVideoUrl(w: World, q: Query)
    requires var c := Run(w, q, true).calls;
      |c| == 8 && c[6].Pin? && PinResult(w, c[6]).Err?
    ensures var e := Run(w, q, true);
      Delivered(e.sends, true) == [ErrorBody(PinResult(w, e.calls[6]).error)]
  {
    RunShaped(w, q, true);
  }
}
