/** The render job's control flow (`TimelapseRenderJob._render` and the
    stages it calls) as a state machine. Every outside effect is an input:
    the `World` says what the filesystem holds and how scripts, the encoder
    and the final move turn out, and `Services` carries library functions
    the model does not interpret. The job state records the events the
    job produces, in order: callbacks, script and encoder invocations, and
    changes to the temporary directory. */
module Pipeline {
  import opened Wrappers
  import opened Text
  import opened Errors
  import opened Fps
  import opened Overlay
  import P = Payload
  import Tokens
  import Naming
  import Roll
  import Command

  datatype Camera = Camera(name: string, beforeRenderScript: string, afterRenderScript: string)

  /** The rendering-profile fields the job reads. */
  datatype RenderingSettings = RenderingSettings(
    fps: FpsSettings,
    outputTemplate: string,
    outputFormat: string,
    bitrate: Option<string>,
    enableWatermark: bool,
    selectedWatermark: string,
    overlay: OverlaySettings,
    preRollSeconds: real,
    postRollSeconds: real,
    threadCount: int,
    syncWithTimelapse: bool,
    cleanupAfterRenderComplete: bool,
    cleanupAfterRenderFail: bool)

  /** `RenderJobInfo`. The directories are given already joined. */
  datatype JobInfo = JobInfo(
    jobId: string,
    jobNumber: int,
    jobsRemaining: int,
    camera: Camera,
    jobDirectory: string,
    snapshotDirectory: string,
    snapshotFilenameFormat: string,
    outputTokens: map<string, string>,
    rendering: RenderingSettings,
    ffmpegPath: Option<string>,
    secondsAdded: real)

  /** Library functions left uninterpreted: `utility.round_to(.., 0.001)`,
      the output template's `str.format`, the overlay's library calls
      (`Overlay.Drawing`), `str()` of a float, `sarge.shell_quote`,
      `os.path.join`, and what `str.format` makes of a filter template's
      replacement field that is not a plain name. */
  datatype Services = Services(
    roundTo: real -> real,
    formatTemplate: (string, map<string, string>) -> Formatted,
    drawing: Drawing,
    floatText: real -> string,
    shellQuote: string -> string,
    joinPath: (string, string) -> string,
    formatField: Command.FieldLookup)

  /** The platform (`sys.platform == "win32"`, `os.sep`) and OctoPrint's own
      timelapse folder. */
  datatype Host = Host(windows: bool, timelapseFolder: string) {
    function Sep(): char {
      if windows then '\\' else '/'
    }
  }

  /** How a script run ends: the process could not be run, or it exited. */
  datatype ScriptRun = ProcessError(detail: string) | Finished(returnCode: int, stdout: string, stderr: string)

  /** How the encoder run ends: it could not be launched, or it exited. */
  datatype EncoderRun = LaunchFailed(detail: string) | Exited(returnCode: int, stderr: string)

  /** Everything the job observes from outside. `metadata` is None when the
      metadata file cannot be read; `files` are the paths `os.path.isfile`
      accepts and `directories` the other paths `os.path.exists` accepts;
      `makedirsError` and `syncError` name the exception `os.makedirs` and
      `shutil.move` raise, if any; `tempPath` is the directory `mkdtemp`
      returns. */
  datatype World = World(
    metadata: Option<seq<FrameRecord>>,
    snapshotDirExists: bool,
    listedFiles: nat,
    snapshots: map<int, Image>,
    files: set<string>,
    directories: set<string>,
    beforeScript: ScriptRun,
    afterScript: ScriptRun,
    makedirsError: Option<string>,
    tempPath: string,
    encoder: EncoderRun,
    syncError: Option<string>)
  {
    /** The paths `os.path.exists` accepts. */
    function Existing(): set<string> {
      files + directories
    }
  }

  datatype Env = Env(job: JobInfo, svc: Services, host: Host, world: World)

  /** The four lifecycle callbacks of a job. */
  datatype Callback =
    | PrerenderStart(payload: P.Payload)
    | RenderStart(payload: P.Payload)
    | RenderSuccess(payload: P.Payload)
    | RenderFailure(payload: P.Payload, error: RenderError)

  datatype Event =
    | Notified(callback: Callback)
    | ScriptInvoked(args: seq<string>)
    | EncoderInvoked(args: seq<string>)
    | TempDirCreated
    | TempDirDeleted
    | OutputDirCreated(path: string)
    | FileMoved(source: string, destination: string)
  {
    /** The success and the error callback end a job. */
    predicate IsTerminal() {
      Notified? && (callback.RenderSuccess? || callback.RenderFailure?)
    }
  }

  predicate NoTerminal(es: seq<Event>) {
    forall i :: 0 <= i < |es| ==> !es[i].IsTerminal()
  }

  /** The last event is a terminal callback and no other event is. */
  predicate OneTerminalLast(es: seq<Event>) {
    |es| > 0 && es[|es| - 1].IsTerminal() && NoTerminal(es[..|es| - 1])
  }

  datatype TempDir = NotCreated | Present | Removed

  /** The job's mutable fields. */
  datatype JobState = JobState(
    events: seq<Event>,
    beforeError: Option<RenderError>,
    afterError: Option<RenderError>,
    imageCount: Option<int>,
    fps: real,
    tokens: map<string, string>,
    outputs: Naming.Outputs,
    tempDir: TempDir,
    ffmpeg: string,
    watermark: Option<string>,
    frames: map<int, Image>)

  /** A stage either hands the state on or raises, leaving the state as it
      was when the exception was raised. */
  datatype Step = Next(state: JobState) | Raised(state: JobState, exception: Exception) {
    predicate IsFailure() {
      Raised?
    }

    function PropagateFailure(): Step
      requires Raised?
    {
      this
    }

    function Extract(): JobState
      requires Next?
    {
      state
    }
  }

  /** What the job leaves behind: its events, the temporary directory, and
      the exception that escaped `_render`, if any. */
  datatype Run = Run(events: seq<Event>, tempDir: TempDir, escaped: Option<Exception>)

  const NoOutputs := Naming.Outputs("", "", "", "", "", "")

  function Initial(env: Env): (st: JobState)
    ensures st.events == [] && st.tempDir == NotCreated && st.outputs == NoOutputs
    ensures st.beforeError.None? && st.afterError.None? && st.imageCount.None?
  {
    JobState([], None, None, None, 0.0, env.job.outputTokens, NoOutputs, NotCreated, "", None, map[])
  }

  /** `create_callback_payload`: the return code is always 0. */
  function PayloadOf(env: Env, st: JobState, reason: P.Reason): (p: P.Payload)
    ensures p.RenderingPath() == Naming.FilePath(st.outputs.directory, st.outputs.filename, st.outputs.extension)
    ensures p.SynchronizationPath() == st.outputs.SyncPath()
    ensures p.beforeRenderError == st.beforeError && p.afterRenderError == st.afterError
    ensures p.snapshotCount == st.imageCount && p.returnCode == 0
  {
    P.Payload(
      reason, 0, env.job.jobId, env.job.jobDirectory, env.job.snapshotDirectory,
      st.outputs.directory, st.outputs.filename, st.outputs.extension,
      st.outputs.syncDirectory, st.outputs.syncFilename,
      env.job.rendering.syncWithTimelapse, st.imageCount, env.job.secondsAdded,
      env.job.jobNumber, env.job.jobsRemaining, env.job.camera.name,
      st.beforeError, st.afterError)
  }

  function Notify(st: JobState, c: Callback): (r: JobState)
    requires c.PrerenderStart? || c.RenderStart?
    ensures r == st.(events := st.events + [Notified(c)])
    ensures NoTerminal(st.events) ==> NoTerminal(r.events)
  {
    st.(events := st.events + [Notified(c)])
  }

  // ---------------------------------------------------------------------
  // Scripts

  /** A script's error output with one trailing CRLF dropped. */
  function TrimCrlf(s: string): (r: string)
    ensures EndsWith(s, "\r\n") ==> r + "\r\n" == s
    ensures !EndsWith(s, "\r\n") ==> r == s
  {
    if EndsWith(s, "\r\n") then s[..|s| - 2] else s
  }

  /** The error a script run leaves on the job. `which` is "before" or
      "after". A run that cannot start gives an error whose cause is the
      process error; a non-zero exit gives the trimmed error output if
      there is any, otherwise the return code; a zero exit gives none, even
      when the script wrote error output. */
  function ScriptError(kind: ErrorKind, which: string, run: ScriptRun): (r: Option<RenderError>)
    ensures r.None? <==> run.Finished? && run.returnCode == 0
    ensures r.Some? ==> r.value.kind == kind
    ensures run.ProcessError? ==> r.value.cause == Some(Foreign("ProcessError"))
    ensures run.ProcessError? ==> r.value.message == ScriptCouldNotRun(which)
    ensures run.Finished? && run.returnCode != 0 ==>
      r.value.cause.None?
      && (TrimCrlf(run.stderr) != "" ==> r.value.message == ScriptErrorOutput(which, TrimCrlf(run.stderr)))
      && (TrimCrlf(run.stderr) == "" ==> r.value.message == ScriptReturnCode(which, run.returnCode))
  {
    match run
    case ProcessError(_) =>
      Some(RenderError(kind, ScriptCouldNotRun(which), Some(Foreign("ProcessError"))))
    case Finished(rc, _, stderr) =>
      var output := TrimCrlf(stderr);
      if rc == 0 then None
      else if output != "" then Some(RenderError(kind, ScriptErrorOutput(which, output), None))
      else Some(RenderError(kind, ScriptReturnCode(which, rc), None))
  }

  /** The arguments both scripts start with. */
  function ScriptArgs(env: Env, script: string): (args: seq<string>)
    ensures |args| == 5 && args[0] == script && args[1] == env.job.camera.name
  {
    [script, env.job.camera.name, env.job.snapshotDirectory, env.job.snapshotFilenameFormat,
     env.svc.joinPath(env.job.snapshotDirectory, env.job.snapshotFilenameFormat)]
  }

  /** `_pre_render_script`: a blank script is skipped; otherwise it runs
      and any error is stored on the job, never raised. */
  function BeforeScript(env: Env, st: JobState): (r: JobState)
    ensures r == st.(events := r.events, beforeError := r.beforeError)
    ensures st.events <= r.events && (NoTerminal(st.events) ==> NoTerminal(r.events))
    ensures IsBlank(env.job.camera.beforeRenderScript) ==> r == st
    ensures !IsBlank(env.job.camera.beforeRenderScript) ==>
      r.beforeError == ScriptError(BeforeRenderScriptError, "before", env.world.beforeScript)
      && r.events == st.events + [ScriptInvoked(ScriptArgs(env, Strip(env.job.camera.beforeRenderScript)))]
  {
    var script := Strip(env.job.camera.beforeRenderScript);
    StripEmptyIffBlank(env.job.camera.beforeRenderScript);
    if script == "" then st
    else
      st.(events := st.events + [ScriptInvoked(ScriptArgs(env, script))],
          beforeError := ScriptError(BeforeRenderScriptError, "before", env.world.beforeScript))
  }

  /** The after-render script's arguments: the common ones, then the
      render directory, file name, extension and path, and the synchronised
      directory and file name. */
  function AfterScriptArgs(env: Env, script: string, o: Naming.Outputs): (args: seq<string>)
    ensures |args| == 11 && args[0] == script && args[8] == o.filePath
    ensures args[5..] == [o.directory, o.filename, o.extension, o.filePath, o.syncDirectory, o.syncFilename]
  {
    ScriptArgs(env, script) + [o.directory, o.filename, o.extension, o.filePath, o.syncDirectory, o.syncFilename]
  }

  /** `_post_render_script`: as the before-render script, with the chosen
      output locations appended to the arguments. */
  function AfterScript(env: Env, st: JobState): (r: JobState)
    ensures r == st.(events := r.events, afterError := r.afterError)
    ensures st.events <= r.events && (NoTerminal(st.events) ==> NoTerminal(r.events))
    ensures IsBlank(env.job.camera.afterRenderScript) ==> r == st
    ensures !IsBlank(env.job.camera.afterRenderScript) ==>
      r.afterError == ScriptError(AfterRenderScriptError, "after", env.world.afterScript)
      && r.events == st.events + [ScriptInvoked(AfterScriptArgs(env, Strip(env.job.camera.afterRenderScript), st.outputs))]
  {
    var script := Strip(env.job.camera.afterRenderScript);
    StripEmptyIffBlank(env.job.camera.afterRenderScript);
    if script == "" then st
    else
      st.(events := st.events + [ScriptInvoked(AfterScriptArgs(env, script, st.outputs))],
          afterError := ScriptError(AfterRenderScriptError, "after", env.world.afterScript))
  }

  // ---------------------------------------------------------------------
  // Gating

  /** `_read_snapshot_metadata`: the number of metadata rows; without a
      readable metadata file, the number of entries in the snapshot
      directory, or 0 when it does not exist. */
  function ImageCount(w: World): (n: nat)
    ensures w.metadata.Some? ==> n == |w.metadata.value|
    ensures w.metadata.None? && !w.snapshotDirExists ==> n == 0
    ensures w.metadata.None? && w.snapshotDirExists ==> n == w.listedFiles
  {
    match w.metadata
    case Some(records) => |records|
    case None => if w.snapshotDirExists then w.listedFiles else 0
  }

  /** The `insufficient-images` test on a frame rate, with the message the
      source uses. */
  predicate InsufficientImagesError(e: Exception) {
    e.Raise? && e.error.kind == InsufficientImages
  }

  /** `_pre_render`: count the frames (recording SNAPSHOTCOUNT), reject 0 or
      1 frames, compute the frame rate (recording FPS), reject a rate below
      1, then settle the output names. The outputs are only set once every
      gate has passed, except that the render directory is already set when
      expanding the template raises. */
  function PreRender(env: Env, st: JobState): (r: Step)
    ensures r.state.events == st.events && r.state.tempDir == st.tempDir
    ensures r.state.beforeError == st.beforeError && r.state.afterError == st.afterError
    ensures r.state.imageCount == Some(ImageCount(env.world))
    ensures ImageCount(env.world) < 2 ==>
      r.Raised? && InsufficientImagesError(r.exception) && r.state.outputs == st.outputs
    ensures (ImageCount(env.world) >= 2
             && CalculateFps(env.job.rendering.fps, ImageCount(env.world), env.svc.roundTo).Ok?
             && CalculateFps(env.job.rendering.fps, ImageCount(env.world), env.svc.roundTo).value < 1.0)
      ==> r.Raised? && InsufficientImagesError(r.exception) && r.state.outputs == st.outputs
    ensures r.Next? ==>
      ImageCount(env.world) >= 2
      && CalculateFps(env.job.rendering.fps, ImageCount(env.world), env.svc.roundTo) == Ok(r.state.fps)
      && r.state.fps >= 1.0
      && Naming.SetOutputs(
           r.state.tokens, env.job.rendering.outputTemplate, env.job.rendering.outputFormat,
           env.host.timelapseFolder, env.host.Sep(), env.world.files, env.svc.formatTemplate)
         == Ok(r.state.outputs)
      && r.state.tokens == Tokens.WithFps(Tokens.WithSnapshotCount(st.tokens, ImageCount(env.world)), r.state.fps)
  {
    var count := ImageCount(env.world);
    var counted := st.(imageCount := Some(count), tokens := Tokens.WithSnapshotCount(st.tokens, count));
    if count == 0 then
      Raised(counted, Fail(InsufficientImages, NoSnapshots(env.job.camera.name)))
    else if count == 1 then
      Raised(counted, Fail(InsufficientImages, SingleFrame))
    else
      match CalculateFps(env.job.rendering.fps, count, env.svc.roundTo)
      case Err(e) => Raised(counted, e)
      case Ok(fps) =>
        var timed := counted.(fps := fps, tokens := Tokens.WithFps(counted.tokens, fps));
        if fps < 1.0 then Raised(timed, Fail(InsufficientImages, FpsBelowOne))
        else
          var tokens := timed.tokens;
          match Naming.SetOutputs(
            tokens, env.job.rendering.outputTemplate, env.job.rendering.outputFormat,
            env.host.timelapseFolder, env.host.Sep(), env.world.files, env.svc.formatTemplate)
          case Err(e) =>
            var directory :=
              if "DATADIRECTORY" in tokens then Naming.OutputDirectory(tokens["DATADIRECTORY"], env.host.Sep())
              else timed.outputs.directory;
            Raised(timed.(outputs := timed.outputs.(directory := directory)), e)
          case Ok(o) => Next(timed.(outputs := o))
  }

  // ---------------------------------------------------------------------
  // Rendering

  /** The start callback, then `mkdtemp`. */
  function Start(env: Env, st: JobState): (r: JobState)
    ensures r == st.(events := r.events, tempDir := Present)
    ensures st.events <= r.events && (NoTerminal(st.events) ==> NoTerminal(r.events))
    ensures |r.events| == |st.events| + 2
    ensures r.events[|st.events|] == Notified(RenderStart(PayloadOf(env, st, P.RenderStarting)))
  {
    var announced := Notify(st, RenderStart(PayloadOf(env, st, P.RenderStarting)));
    announced.(events := announced.events + [TempDirCreated], tempDir := Present)
  }

  /** Creates the render directory unless it exists; a failure is
      `create-render-path` with the failure as its cause. */
  function MakeOutputDirectory(env: Env, st: JobState): (r: Step)
    ensures r.state == st.(events := r.state.events)
    ensures st.events <= r.state.events && (NoTerminal(st.events) ==> NoTerminal(r.state.events))
    ensures r.Raised? <==> st.outputs.directory !in env.world.Existing() && env.world.makedirsError.Some?
    ensures r.Raised? ==>
      (r.exception.Raise? && r.exception.error.kind == CreateRenderPath
       && r.exception.error.message == CannotCreateRenderPath(st.outputs.directory)
       && r.exception.error.cause == Some(Foreign(env.world.makedirsError.value)))
  {
    var directory := st.outputs.directory;
    if directory in env.world.Existing() then Next(st)
    else
      match env.world.makedirsError
      case Some(name) =>
        Raised(st, FailWithCause(CreateRenderPath, CannotCreateRenderPath(directory), Foreign(name)))
      case None => Next(st.(events := st.events + [OutputDirCreated(directory)]))
  }

  /** The watermark handed to the encoder: none when disabled; an enabled
      watermark must be selected and must exist; on Windows it is escaped. */
  function WatermarkFor(s: RenderingSettings, existing: set<string>, windows: bool): (r: Result<Option<string>, Exception>)
    ensures !s.enableWatermark ==> r == Ok(None)
    ensures s.enableWatermark && s.selectedWatermark == "" ==>
      r == Err(Fail(WatermarkPath, WatermarkNotSelected))
    ensures s.enableWatermark && s.selectedWatermark != "" && s.selectedWatermark !in existing ==>
      r == Err(Fail(WatermarkNonExistent, WatermarkMissing))
    ensures r.Ok? && r.value.Some? ==>
      s.enableWatermark && s.selectedWatermark in existing
      && r.value.value == (if windows then Command.EscapeWatermark(s.selectedWatermark) else s.selectedWatermark)
  {
    if !s.enableWatermark then Ok(None)
    else if s.selectedWatermark == "" then
      Err(Fail(WatermarkPath, WatermarkNotSelected))
    else if s.selectedWatermark !in existing then
      Err(Fail(WatermarkNonExistent, WatermarkMissing))
    else if windows then Ok(Some(Command.EscapeWatermark(s.selectedWatermark)))
    else Ok(Some(s.selectedWatermark))
  }

  /** The checks between `mkdtemp` and preprocessing, in the source's order:
      encoder path, bitrate, render directory, watermark. */
  function Prepare(env: Env, st: JobState): (r: Step)
    ensures r.state == st.(events := r.state.events, ffmpeg := r.state.ffmpeg, watermark := r.state.watermark)
    ensures st.events <= r.state.events && (NoTerminal(st.events) ==> NoTerminal(r.state.events))
    ensures env.job.ffmpegPath.None? ==> r.Raised? && r.exception == Fail(FfmpegPath, FfmpegPathUnset)
    ensures env.job.ffmpegPath.Some? && env.job.rendering.bitrate.None? ==>
      r.Raised? && r.exception == Fail(NoBitrate, BitrateUnset)
    ensures r.Next? ==>
      env.job.rendering.bitrate.Some?
      && Command.EncoderPath(env.job.ffmpegPath, env.host.windows) == Some(r.state.ffmpeg)
      && MakeOutputDirectory(env, st.(ffmpeg := r.state.ffmpeg)).Next?
      && WatermarkFor(env.job.rendering, env.world.Existing(), env.host.windows) == Ok(r.state.watermark)
    ensures env.job.ffmpegPath.Some? && env.job.rendering.bitrate.Some? ==>
      var made := MakeOutputDirectory(env, st.(ffmpeg := Command.EncoderPath(env.job.ffmpegPath, env.host.windows).value));
      var w := WatermarkFor(env.job.rendering, env.world.Existing(), env.host.windows);
      && (made.Raised? ==> r == made)
      && (made.Next? && w.Err? ==> r == Raised(made.state, w.error))
  {
    match Command.EncoderPath(env.job.ffmpegPath, env.host.windows)
    case None => Raised(st, Fail(FfmpegPath, FfmpegPathUnset))
    case Some(ffmpeg) =>
      if env.job.rendering.bitrate.None? then Raised(st, Fail(NoBitrate, BitrateUnset))
      else
        var made :- MakeOutputDirectory(env, st.(ffmpeg := ffmpeg));
        match WatermarkFor(env.job.rendering, env.world.Existing(), env.host.windows)
        case Err(e) => Raised(made, e)
        case Ok(watermark) => Next(made.(watermark := watermark))
  }

  /** `_preprocess_images` then `_apply_pre_post_roll`: the working
      directory the encoder reads. The roll lengths are the roll durations
      times the frame rate, truncated. */
  function WorkingFrames(
    job: JobInfo, svc: Services, snapshots: map<int, Image>, metadata: Option<seq<FrameRecord>>,
    count: nat, fps: real)
    : Result<map<int, Image>, Exception>
  {
    var frames :- Preprocess(snapshots, metadata, count, job.rendering.overlay, svc.drawing);
    var pre := Trunc(job.rendering.preRollSeconds * fps);
    var post := Trunc(job.rendering.postRollSeconds * fps);
    Roll.PrePostRoll(frames, count, pre, post)
  }

  function Frames(env: Env, st: JobState): (r: Step)
    requires st.imageCount.Some? && st.imageCount.value >= 0
    ensures r.state == st.(frames := r.state.frames)
  {
    match WorkingFrames(env.job, env.svc, env.world.snapshots, env.world.metadata, st.imageCount.value, st.fps)
    case Err(e) => Raised(st, e)
    case Ok(frames) => Next(st.(frames := frames))
  }

  /** The encoder's argument list for this job (`_create_ffmpeg_command_string`);
      the command string is these joined by spaces. Building the filter
      string can raise. */
  function EncoderArgs(env: Env, st: JobState, bitrate: string): (r: Result<seq<string>, Exception>)
    ensures r.Err? <==> Command.FilterString(st.watermark, Command.DefaultPixelFormat, env.svc.formatField).Err?
    ensures r.Ok? ==>
      |r.value| == 19 && r.value[0] == st.ffmpeg && r.value[18] == Command.Quoted(st.outputs.filePath)
  {
    Command.EncoderCommand(
      st.ffmpeg, st.fps, env.svc.joinPath(env.world.tempPath, env.job.snapshotFilenameFormat),
      st.outputs.filePath, st.watermark, env.job.rendering.threadCount, bitrate,
      env.job.rendering.outputFormat, env.svc.floatText, env.svc.shellQuote, env.svc.formatField)
  }

  /** Builds the command, then runs the encoder. A failure to build the
      command raises before the encoder runs; a launch failure is
      `rendering-exception`; a non-zero exit is `return-code` with the code
      and the error output in the message. */
  function Encode(env: Env, st: JobState): (r: Step)
    requires env.job.rendering.bitrate.Some?
    ensures r.state == st.(events := r.state.events)
    ensures NoTerminal(st.events) ==> NoTerminal(r.state.events)
    ensures var args := EncoderArgs(env, st, env.job.rendering.bitrate.value);
      && (args.Err? ==> r == Raised(st, args.error))
      && (args.Ok? ==> r.state.events == st.events + [EncoderInvoked(args.value)])
      && (r.Next? <==> args.Ok? && env.world.encoder.Exited? && env.world.encoder.returnCode == 0)
      && (args.Ok? && env.world.encoder.LaunchFailed? ==>
            r.Raised? && r.exception == FailWithCause(RenderingException, EncoderFailed, Foreign(env.world.encoder.detail)))
      && (args.Ok? && env.world.encoder.Exited? && env.world.encoder.returnCode != 0 ==>
            r.Raised? && r.exception.Raise? && r.exception.error.kind == ReturnCode
            && r.exception.error.message == EncoderReturnCode(env.world.encoder.returnCode, env.world.encoder.stderr))
  {
    match EncoderArgs(env, st, env.job.rendering.bitrate.value)
    case Err(e) => Raised(st, e)
    case Ok(args) =>
      var invoked := st.(events := st.events + [EncoderInvoked(args)]);
      match env.world.encoder
      case LaunchFailed(detail) =>
        Raised(invoked, FailWithCause(RenderingException, EncoderFailed, Foreign(detail)))
      case Exited(rc, stderr) =>
        if rc != 0 then
          Raised(invoked, Fail(ReturnCode, EncoderReturnCode(rc, stderr)))
        else Next(invoked)
  }

  /** Deletes the temporary directory after a successful encode when the
      profile asks for it. */
  function CleanupOnSuccess(env: Env, st: JobState): (r: JobState)
    ensures r == st.(events := r.events, tempDir := r.tempDir)
    ensures st.events <= r.events && (NoTerminal(st.events) ==> NoTerminal(r.events))
    ensures r.tempDir == (if env.job.rendering.cleanupAfterRenderComplete then Removed else st.tempDir)
  {
    if env.job.rendering.cleanupAfterRenderComplete then
      st.(events := st.events + [TempDirDeleted], tempDir := Removed)
    else st
  }

  /** Moves the rendered file into OctoPrint's timelapse folder when
      synchronisation is on; a failed move is `synchronizing-exception`. */
  function Synchronize(env: Env, st: JobState): (r: Step)
    ensures r.state == st.(events := r.state.events)
    ensures st.events <= r.state.events && (NoTerminal(st.events) ==> NoTerminal(r.state.events))
    ensures r.Raised? <==> env.job.rendering.syncWithTimelapse && env.world.syncError.Some?
    ensures r.Raised? ==>
      r.exception == FailWithCause(SynchronizingException, SyncFailed(st.outputs.filePath), Foreign(env.world.syncError.value))
    ensures r.Next? && env.job.rendering.syncWithTimelapse ==>
      r.state.events == st.events + [FileMoved(st.outputs.filePath, st.outputs.SyncPath())]
  {
    if !env.job.rendering.syncWithTimelapse then Next(st)
    else
      match env.world.syncError
      case Some(name) =>
        Raised(st, FailWithCause(SynchronizingException, SyncFailed(st.outputs.filePath), Foreign(name)))
      case None => Next(st.(events := st.events + [FileMoved(st.outputs.filePath, st.outputs.SyncPath())]))
  }

  // ---------------------------------------------------------------------
  // The job

  /** The events of a job so far start with the prerender callback and
      contain no terminal callback. */
  predicate WellStarted(env: Env, es: seq<Event>) {
    |es| >= 1 && es[0] == Notified(PrerenderStart(PayloadOf(env, Initial(env), P.PrerenderStarting)))
    && NoTerminal(es)
  }

  /** The encoder was run with `path` as its output file. */
  predicate Encoded(es: seq<Event>, path: string) {
    exists i :: 0 <= i < |es| && es[i].EncoderInvoked? && |es[i].args| == 19 && es[i].args[18] == Command.Quoted(path)
  }

  lemma EncodedPersists(es: seq<Event>, more: seq<Event>, path: string)
    requires Encoded(es, path) && es <= more
    ensures Encoded(more, path)
  {
    var i :| 0 <= i < |es| && es[i].EncoderInvoked? && |es[i].args| == 19 && es[i].args[18] == Command.Quoted(path);
    assert more[i] == es[i];
  }

  /** The prerender callback and the before-render script. */
  function Opening(env: Env): (r: JobState)
    ensures WellStarted(env, r.events)
    ensures Core(r) == Core(Initial(env))
  {
    var s0 := Initial(env);
    BeforeScript(env, Notify(s0, PrerenderStart(PayloadOf(env, s0, P.PrerenderStarting))))
  }

  /** The working frames, then the encoder. */
  function Output(env: Env, st: JobState): (r: Step)
    requires st.imageCount.Some? && st.imageCount.value >= 0 && env.job.rendering.bitrate.Some?
    ensures st.events <= r.state.events && (NoTerminal(st.events) ==> NoTerminal(r.state.events))
    ensures r.state == st.(events := r.state.events, frames := r.state.frames)
    ensures r.Next? ==>
      Encoded(r.state.events, st.outputs.filePath)
      && env.world.encoder.Exited? && env.world.encoder.returnCode == 0
  {
    var s6 :- Frames(env, st);
    var s7 :- Encode(env, s6);
    assert s7.events[|s6.events|] == EncoderInvoked(EncoderArgs(env, s6, env.job.rendering.bitrate.value).value);
    Next(s7)
  }

  /** From the start callback to the encoder run. */
  function Produce(env: Env, st: JobState): (r: Step)
    requires st.imageCount.Some? && st.imageCount.value >= 0
    ensures st.events <= r.state.events && (NoTerminal(st.events) ==> NoTerminal(r.state.events))
    ensures r.state.tempDir == Present && r.state.outputs == st.outputs && r.state.imageCount == st.imageCount
    ensures r.state.tokens == st.tokens
    ensures r.Next? ==>
      Encoded(r.state.events, st.outputs.filePath)
      && env.world.encoder.Exited? && env.world.encoder.returnCode == 0
  {
    var s4 := Start(env, st);
    var s5 :- Prepare(env, s4);
    Output(env, s5)
  }

  /** After a successful encode: the after-render script and the clean-up
      on success. */
  function Wrapup(env: Env, st: JobState): (r: JobState)
    ensures st.events <= r.events && (NoTerminal(st.events) ==> NoTerminal(r.events))
    ensures r.outputs == st.outputs && r.imageCount == st.imageCount && r.tokens == st.tokens
    ensures r.tempDir == (if env.job.rendering.cleanupAfterRenderComplete then Removed else st.tempDir)
  {
    CleanupOnSuccess(env, AfterScript(env, st))
  }

  /** The body of the `try` in `_render` up to, not including, the
      synchronising move. */
  function BeforeSync(env: Env): (r: Step)
    ensures WellStarted(env, r.state.events)
    ensures r.Raised? ==> r.state.tempDir != Removed
    ensures r.Next? ==>
      r.state.tempDir == (if env.job.rendering.cleanupAfterRenderComplete then Removed else Present)
      && r.state.imageCount == Some(ImageCount(env.world))
      && Naming.SetOutputs(
           r.state.tokens, env.job.rendering.outputTemplate, env.job.rendering.outputFormat,
           env.host.timelapseFolder, env.host.Sep(), env.world.files, env.svc.formatTemplate)
         == Ok(r.state.outputs)
      && Encoded(r.state.events, r.state.outputs.filePath)
      && env.world.encoder.Exited? && env.world.encoder.returnCode == 0
  {
    var s2 := Opening(env);
    var s3 :- PreRender(env, s2);
    var s7 :- Produce(env, s3);
    var s9 := Wrapup(env, s7);
    EncodedPersists(s7.events, s9.events, s7.outputs.filePath);
    Next(s9)
  }

  /** The whole `try` block of `_render`. */
  function Body(env: Env): (r: Step)
    ensures WellStarted(env, r.state.events)
    ensures BeforeSync(env).Raised? ==> r == BeforeSync(env)
    ensures BeforeSync(env).Next? ==> r == Synchronize(env, BeforeSync(env).state)
  {
    var s :- BeforeSync(env);
    Synchronize(env, s)
  }

  /** The `except` clause and the final callback of `_render`. On success
      the success callback fires. On failure the exception is normalised,
      the temporary directory is deleted if the profile asks for it and it
      was created, and the error callback fires. `guarded` selects whether
      that deletion is skipped when the directory is already gone; without
      the guard, deleting a missing directory raises out of `_render` and
      no terminal callback fires. */
  function Finish(env: Env, body: Step, guarded: bool): (r: Run)
    requires NoTerminal(body.state.events)
    ensures body.state.events <= r.events
    ensures r.escaped.None? ==>
      |r.events| == |body.state.events| + 1 + (if body.Raised? && env.job.rendering.cleanupAfterRenderFail && body.state.tempDir == Present then 1 else 0)
      && NoTerminal(r.events[..|r.events| - 1])
      && r.events[|r.events| - 1].IsTerminal()
    ensures r.escaped.Some? <==>
      !guarded && body.Raised? && env.job.rendering.cleanupAfterRenderFail && body.state.tempDir == Removed
    ensures r.escaped.Some? ==> r.escaped == Some(Foreign("OSError")) && NoTerminal(r.events)
    ensures body.Next? ==>
      r.events == body.state.events + [Notified(RenderSuccess(PayloadOf(env, body.state, P.RenderComplete)))]
      && r.tempDir == body.state.tempDir
    ensures body.Raised? && r.escaped.None? ==>
      r.events[|r.events| - 1] == Notified(RenderFailure(PayloadOf(env, body.state, P.RenderFailed), Normalize(body.exception)))
    ensures body.Raised? && env.job.rendering.cleanupAfterRenderFail ==> r.tempDir != Present
    ensures body.Raised? && !env.job.rendering.cleanupAfterRenderFail ==> r.tempDir == body.state.tempDir
  {
    var st := body.state;
    match body
    case Next(_) =>
      Run(st.events + [Notified(RenderSuccess(PayloadOf(env, st, P.RenderComplete)))], st.tempDir, None)
    case Raised(_, e) =>
      var error := Normalize(e);
      var failed := Notified(RenderFailure(PayloadOf(env, st, P.RenderFailed), error));
      if env.job.rendering.cleanupAfterRenderFail && st.tempDir == Present then
        Run(st.events + [TempDirDeleted, failed], Removed, None)
      else if env.job.rendering.cleanupAfterRenderFail && st.tempDir == Removed && !guarded then
        Run(st.events, Removed, Some(Foreign("OSError")))
      else
        Run(st.events + [failed], st.tempDir, None)
  }

  /** Without the guard, the `except` clause either lets the clean-up's
      exception escape, with no terminal callback, or fires exactly one,
      last. */
  lemma FinishUnguarded(env: Env, b: Step)
    requires NoTerminal(b.state.events)
    ensures var r := Finish(env, b, false);
      && (r.escaped.Some? <==> b.Raised? && env.job.rendering.cleanupAfterRenderFail && b.state.tempDir == Removed)
      && (r.escaped.Some? ==> NoTerminal(r.events))
      && (r.escaped.None? ==> OneTerminalLast(r.events))
  {
  }

  function RenderWith(env: Env, guarded: bool): Run {
    Finish(env, Body(env), guarded)
  }

  /** `_render` as the source writes it: an exception escapes exactly when
      the failure clean-up meets a directory already deleted, and then no
      terminal callback fires; otherwise exactly one fires, last. */
  function RenderAsWritten(env: Env): (r: Run)
    ensures r.escaped.Some? <==>
      Body(env).Raised? && env.job.rendering.cleanupAfterRenderFail && Body(env).state.tempDir == Removed
    ensures r.escaped.Some? ==> NoTerminal(r.events)
    ensures r.escaped.None? ==> OneTerminalLast(r.events)
  {
    var b := Body(env);
    FinishUnguarded(env, b);
    Finish(env, b, false)
  }

  /** `_render` with the failure clean-up skipped for a directory that is
      already deleted: nothing escapes and exactly one terminal callback
      fires, last. */
  function Render(env: Env): (r: Run)
    ensures r.escaped.None? && OneTerminalLast(r.events)
    ensures Body(env).state.events <= r.events
  {
    var b := Body(env);
    FinishFiresExactlyOneTerminalCallback(env, b);
    Finish(env, b, true)
  }

  /** Did the job end with the success callback? */
  predicate Succeeded(r: Run) {
    |r.events| > 0 && r.events[|r.events| - 1].IsTerminal() && r.events[|r.events| - 1].callback.RenderSuccess?
  }

  // ---------------------------------------------------------------------
  // Properties

  /** Did the job end with the error callback, reporting `e`? */
  predicate FailedWith(r: Run, e: RenderError) {
    |r.events| > 0 && r.events[|r.events| - 1].Notified?
    && r.events[|r.events| - 1].callback.RenderFailure? && r.events[|r.events| - 1].callback.error == e
  }

  /** Whatever the body did, the guarded `except` clause lets nothing escape
      and fires exactly one terminal callback, last: success exactly when
      the body completed, otherwise the error callback with the normalised
      exception. */
  lemma FinishFiresExactlyOneTerminalCallback(env: Env, b: Step)
    requires NoTerminal(b.state.events)
    ensures var r := Finish(env, b, true);
      && r.escaped.None?
      && b.state.events <= r.events && |r.events| > |b.state.events|
      && OneTerminalLast(r.events)
      && (Succeeded(r) <==> b.Next?)
      && (b.Raised? ==> FailedWith(r, Normalize(b.exception)))
  {
  }

  lemma RenderEndsWithOneTerminal(env: Env)
    ensures var r := Render(env);
      && |r.events| >= 2
      && r.escaped.None?
      && r.events[0] == Notified(PrerenderStart(PayloadOf(env, Initial(env), P.PrerenderStarting)))
      && OneTerminalLast(r.events)
  {
    var b := Body(env);
    FinishFiresExactlyOneTerminalCallback(env, b);
    var r := Finish(env, b, true);
    assert Render(env) == r;
    assert r.events[0] == b.state.events[0];
  }

  lemma RenderReportsTheBody(env: Env)
    ensures Succeeded(Render(env)) <==> Body(env).Next?
    ensures Body(env).Raised? ==> FailedWith(Render(env), Normalize(Body(env).exception))
  {
    var b := Body(env);
    FinishFiresExactlyOneTerminalCallback(env, b);
    assert Render(env) == Finish(env, b, true);
  }

  /** Every job starts with the prerender callback and ends with exactly one
      of the success and error callbacks, as its last event; nothing
      escapes. Success happens exactly when the `try` body completes, and
      the error reported is the raised exception, normalised. */
  lemma RenderFiresExactlyOneTerminalCallback(env: Env)
    ensures var r := Render(env);
      && |r.events| >= 2
      && r.escaped.None?
      && r.events[0] == Notified(PrerenderStart(PayloadOf(env, Initial(env), P.PrerenderStarting)))
      && OneTerminalLast(r.events)
      && (Succeeded(r) <==> Body(env).Next?)
      && (Body(env).Raised? ==> FailedWith(r, Normalize(Body(env).exception)))
  {
    RenderEndsWithOneTerminal(env);
    RenderReportsTheBody(env);
  }

  /** An exception other than a `RenderError` reaches the error callback as
      `render-error`, with the exception as its cause. */
  lemma ForeignExceptionsBecomeRenderErrors(env: Env)
    requires Body(env).Raised? && Body(env).exception.Foreign?
    ensures FailedWith(Render(env), RenderError(UnknownRenderError, UnknownError, Some(Body(env).exception)))
  {
    RenderFiresExactlyOneTerminalCallback(env);
  }

  /** Zero or one frame, or a frame rate below 1, fail before the start
      callback: the error is `insufficient-images`, no encoder runs, no
      temporary directory is created and the outputs stay unset. */
  lemma TooFewFramesFailBeforeRendering(env: Env)
    requires ImageCount(env.world) < 2
      || (CalculateFps(env.job.rendering.fps, ImageCount(env.world), env.svc.roundTo).Ok?
          && CalculateFps(env.job.rendering.fps, ImageCount(env.world), env.svc.roundTo).value < 1.0)
    ensures var b := Body(env);
      && b.Raised? && InsufficientImagesError(b.exception)
      && b.state.outputs == NoOutputs
      && b.state.tempDir == NotCreated
      && (forall i :: 0 <= i < |b.state.events| ==>
            !b.state.events[i].EncoderInvoked? && !(b.state.events[i].Notified? && b.state.events[i].callback.RenderStart?))
    ensures Body(env).Raised? && Body(env).exception.Raise? && FailedWith(Render(env), Body(env).exception.error)
  {
    var s2 := Opening(env);
    var pre := PreRender(env, s2);
    assert pre.Raised?;
    assert BeforeSync(env) == pre && Body(env) == pre;
    OpeningRendersNothing(env);
    RenderFiresExactlyOneTerminalCallback(env);
  }

  /** Before pre-rendering, the job has neither announced the render nor
      run the encoder. */
  lemma OpeningRendersNothing(env: Env)
    ensures var es := Opening(env).events;
      forall i :: 0 <= i < |es| ==> !es[i].EncoderInvoked? && !(es[i].Notified? && es[i].callback.RenderStart?)
  {
    var s0 := Initial(env);
    var first := Notified(PrerenderStart(PayloadOf(env, s0, P.PrerenderStarting)));
    var s1 := Notify(s0, first.callback);
    assert s1.events == [first];
    var es := BeforeScript(env, s1).events;
    assert Opening(env).events == es;
    if IsBlank(env.job.camera.beforeRenderScript) {
      assert es == [first];
    } else {
      var run := ScriptInvoked(ScriptArgs(env, Strip(env.job.camera.beforeRenderScript)));
      assert es == [first, run];
    }
  }

  /** Clean-up on failure: when the profile asks for it, no temporary
      directory is left behind by a failed job. */
  lemma FailedJobsCleanUp(env: Env)
    requires Body(env).Raised? && env.job.rendering.cleanupAfterRenderFail
    ensures Render(env).tempDir != Present
    ensures RenderAsWritten(env).tempDir != Present
  {
  }

  /** A successful job keeps the temporary directory exactly when the
      profile does not ask for clean-up after success. */
  lemma SucceededJobsKeepTempUnlessCleaned(env: Env)
    requires Body(env).Next?
    ensures Render(env).tempDir == (if env.job.rendering.cleanupAfterRenderComplete then Removed else Present)
  {
  }

  /** The success payload names the file the encoder wrote and, when
      synchronising, the file it was moved to; neither existed before. */
  lemma SuccessPayloadNamesTheRenderedFiles(env: Env)
    requires Body(env).Next?
    ensures var r := Render(env);
      var p := r.events[|r.events| - 1].callback.payload;
      && r.events[|r.events| - 1].callback.RenderSuccess?
      && p.RenderingPath() !in env.world.files
      && p.SynchronizationPath() !in env.world.files
      && Encoded(r.events, p.RenderingPath())
      && (env.job.rendering.syncWithTimelapse ==>
            FileMoved(p.RenderingPath(), p.SynchronizationPath()) in r.events)
  {
    var s := BeforeSync(env).state;
    var b := Body(env);
    var r := Render(env);
    assert b.state.outputs == s.outputs;
    EncodedPersists(s.events, r.events, s.outputs.filePath);
    if env.job.rendering.syncWithTimelapse {
      assert r.events[|s.events|] == FileMoved(s.outputs.filePath, s.outputs.SyncPath());
    }
  }

  /** The part of the job state that stages decide on: everything but the
      event log and the stored script errors. */
  function Core(st: JobState): (c: JobState)
    ensures c.events == [] && c.beforeError.None? && c.afterError.None?
    ensures c.outputs == st.outputs && c.tempDir == st.tempDir && c.frames == st.frames
  {
    st.(events := [], beforeError := None, afterError := None)
  }

  /** The stage results agree on outcome, core state and exception. */
  predicate SameOutcome(a: Step, b: Step) {
    a.Next? == b.Next? && Core(a.state) == Core(b.state) && (a.Raised? ==> a.exception == b.exception)
  }

  /** `env` with the scripts ending differently. */
  function WithScripts(env: Env, before: ScriptRun, after: ScriptRun): Env {
    env.(world := env.world.(beforeScript := before, afterScript := after))
  }

  lemma PreRenderCore(env: Env, before: ScriptRun, after: ScriptRun, s: JobState, t: JobState)
    requires Core(s) == Core(t)
    ensures SameOutcome(PreRender(env, s), PreRender(WithScripts(env, before, after), t))
  {
    var other := WithScripts(env, before, after);
    var count := ImageCount(env.world);
    assert count == ImageCount(other.world);
    assert s.tokens == t.tokens && s.outputs == t.outputs;
    var sc := s.(imageCount := Some(count), tokens := Tokens.WithSnapshotCount(s.tokens, count));
    var tc := t.(imageCount := Some(count), tokens := Tokens.WithSnapshotCount(t.tokens, count));
    assert Core(sc) == Core(tc);
    if count >= 2 {
      var fps := CalculateFps(env.job.rendering.fps, count, env.svc.roundTo);
      if fps.Ok? {
        var st := sc.(fps := fps.value, tokens := Tokens.WithFps(sc.tokens, fps.value));
        var tt := tc.(fps := fps.value, tokens := Tokens.WithFps(tc.tokens, fps.value));
        assert Core(st) == Core(tt);
        if fps.value >= 1.0 {
          var o := Naming.SetOutputs(
            st.tokens, env.job.rendering.outputTemplate, env.job.rendering.outputFormat,
            env.host.timelapseFolder, env.host.Sep(), env.world.files, env.svc.formatTemplate);
          if o.Ok? {
            assert PreRender(env, s) == Next(st.(outputs := o.value));
            assert PreRender(other, t) == Next(tt.(outputs := o.value));
          }
        }
      }
    }
  }

  lemma PrepareCore(env: Env, before: ScriptRun, after: ScriptRun, s: JobState, t: JobState)
    requires Core(s) == Core(t)
    ensures SameOutcome(Prepare(env, s), Prepare(WithScripts(env, before, after), t))
  {
    var other := WithScripts(env, before, after);
    assert s.outputs == t.outputs;
    var ffmpeg := Command.EncoderPath(env.job.ffmpegPath, env.host.windows);
    if ffmpeg.Some? && env.job.rendering.bitrate.Some? {
      var m, n := MakeOutputDirectory(env, s.(ffmpeg := ffmpeg.value)), MakeOutputDirectory(other, t.(ffmpeg := ffmpeg.value));
      assert SameOutcome(m, n);
      var w := WatermarkFor(env.job.rendering, env.world.Existing(), env.host.windows);
      assert w == WatermarkFor(other.job.rendering, other.world.Existing(), other.host.windows);
      if m.Next? {
        if w.Err? {
          assert Prepare(env, s) == Raised(m.state, w.error);
          assert Prepare(other, t) == Raised(n.state, w.error);
        } else {
          assert Prepare(env, s) == Next(m.state.(watermark := w.value));
          assert Prepare(other, t) == Next(n.state.(watermark := w.value));
        }
      } else {
        assert Prepare(env, s) == m && Prepare(other, t) == n;
      }
    }
  }

  lemma FramesCore(env: Env, before: ScriptRun, after: ScriptRun, s: JobState, t: JobState)
    requires Core(s) == Core(t)
    requires s.imageCount.Some? && s.imageCount.value >= 0
    ensures SameOutcome(Frames(env, s), Frames(WithScripts(env, before, after), t))
  {
    var other := WithScripts(env, before, after);
    assert s.imageCount == t.imageCount && s.fps == t.fps;
    assert other.job == env.job && other.svc == env.svc;
    assert other.world.snapshots == env.world.snapshots && other.world.metadata == env.world.metadata;
  }

  lemma EncodeCore(env: Env, before: ScriptRun, after: ScriptRun, s: JobState, t: JobState)
    requires Core(s) == Core(t)
    requires env.job.rendering.bitrate.Some?
    ensures SameOutcome(Encode(env, s), Encode(WithScripts(env, before, after), t))
  {
    var other := WithScripts(env, before, after);
    assert s.ffmpeg == t.ffmpeg && s.outputs == t.outputs && s.fps == t.fps && s.watermark == t.watermark;
    assert EncoderArgs(env, s, env.job.rendering.bitrate.value) == EncoderArgs(other, t, env.job.rendering.bitrate.value);
  }

  lemma OutputCore(env: Env, before: ScriptRun, after: ScriptRun, s: JobState, t: JobState)
    requires Core(s) == Core(t)
    requires s.imageCount.Some? && s.imageCount.value >= 0 && env.job.rendering.bitrate.Some?
    ensures SameOutcome(Output(env, s), Output(WithScripts(env, before, after), t))
  {
    var other := WithScripts(env, before, after);
    FramesCore(env, before, after, s, t);
    var s6, t6 := Frames(env, s), Frames(other, t);
    if s6.Next? {
      EncodeCore(env, before, after, s6.state, t6.state);
    } else {
      assert Output(env, s) == s6 && Output(other, t) == t6;
    }
  }

  lemma ProduceCore(env: Env, before: ScriptRun, after: ScriptRun, s: JobState, t: JobState)
    requires Core(s) == Core(t)
    requires s.imageCount.Some? && s.imageCount.value >= 0
    ensures SameOutcome(Produce(env, s), Produce(WithScripts(env, before, after), t))
  {
    var other := WithScripts(env, before, after);
    var s4, t4 := Start(env, s), Start(other, t);
    assert Core(s4) == Core(t4);
    PrepareCore(env, before, after, s4, t4);
    var s5, t5 := Prepare(env, s4), Prepare(other, t4);
    if s5.Next? {
      OutputCore(env, before, after, s5.state, t5.state);
    } else {
      assert Produce(env, s) == s5 && Produce(other, t) == t5;
    }
  }

  lemma WrapupCore(env: Env, before: ScriptRun, after: ScriptRun, s: JobState, t: JobState)
    requires Core(s) == Core(t)
    ensures Core(Wrapup(env, s)) == Core(Wrapup(WithScripts(env, before, after), t))
  {
    var other := WithScripts(env, before, after);
    assert Core(AfterScript(env, s)) == Core(AfterScript(other, t));
  }

  lemma SynchronizeCore(env: Env, before: ScriptRun, after: ScriptRun, s: JobState, t: JobState)
    requires Core(s) == Core(t)
    ensures SameOutcome(Synchronize(env, s), Synchronize(WithScripts(env, before, after), t))
  {
    var other := WithScripts(env, before, after);
    assert s.outputs == t.outputs;
  }

  lemma BeforeSyncCore(env: Env, before: ScriptRun, after: ScriptRun)
    ensures SameOutcome(BeforeSync(env), BeforeSync(WithScripts(env, before, after)))
  {
    var other := WithScripts(env, before, after);
    var s2, t2 := Opening(env), Opening(other);
    assert Core(s2) == Core(t2);
    PreRenderCore(env, before, after, s2, t2);
    var s3, t3 := PreRender(env, s2), PreRender(other, t2);
    if s3.Next? {
      ProduceCore(env, before, after, s3.state, t3.state);
      var s7, t7 := Produce(env, s3.state), Produce(other, t3.state);
      if s7.Next? {
        WrapupCore(env, before, after, s7.state, t7.state);
        assert BeforeSync(env) == Next(Wrapup(env, s7.state));
        assert BeforeSync(other) == Next(Wrapup(other, t7.state));
      } else {
        assert BeforeSync(env) == s7 && BeforeSync(other) == t7;
      }
    } else {
      assert BeforeSync(env) == s3 && BeforeSync(other) == t3;
    }
  }

  /** Script outcomes never decide the job: replacing how both scripts end
      leaves the job's success, its error and everything but the events
      and the stored script errors unchanged. */
  lemma ScriptsNeverDecideTheOutcome(env: Env, before: ScriptRun, after: ScriptRun)
    ensures var other := env.(world := env.world.(beforeScript := before, afterScript := after));
      && SameOutcome(Body(env), Body(other))
      && (Succeeded(Render(env)) <==> Succeeded(Render(other)))
  {
    var other := WithScripts(env, before, after);
    BeforeSyncCore(env, before, after);
    if BeforeSync(env).Next? {
      SynchronizeCore(env, before, after, BeforeSync(env).state, BeforeSync(other).state);
    }
    RenderFiresExactlyOneTerminalCallback(env);
    RenderFiresExactlyOneTerminalCallback(other);
  }

  /** As written, the failure clean-up escapes `_render` exactly when the
      synchronising move fails after the temporary directory was already
      deleted on success: both clean-up flags and synchronisation are on
      and the move raises. Then no terminal callback fires at all. */
  lemma AsWrittenSyncFailureEscapes(env: Env)
    ensures RenderAsWritten(env).escaped.Some? <==>
      env.job.rendering.cleanupAfterRenderComplete && env.job.rendering.cleanupAfterRenderFail
      && env.job.rendering.syncWithTimelapse && BeforeSync(env).Next? && env.world.syncError.Some?
    ensures RenderAsWritten(env).escaped.Some? ==>
      NoTerminal(RenderAsWritten(env).events) && RenderAsWritten(env).escaped == Some(Foreign("OSError"))
  {
  }

  /** With the guard, the same failure reaches the error callback as
      `synchronizing-exception`, naming the rendered file. */
  lemma GuardedSyncFailureIsReported(env: Env)
    requires env.job.rendering.cleanupAfterRenderComplete && env.job.rendering.syncWithTimelapse
    requires BeforeSync(env).Next? && env.world.syncError.Some?
    ensures Render(env).escaped.None?
    ensures FailedWith(Render(env), RenderError(
      SynchronizingException, SyncFailed(BeforeSync(env).state.outputs.filePath),
      Some(Foreign(env.world.syncError.value))))
  {
    RenderFiresExactlyOneTerminalCallback(env);
  }

  /** The two versions differ only in the escaping case. */
  lemma GuardOnlyMattersWhenEscaping(env: Env)
    requires RenderAsWritten(env).escaped.None?
    ensures RenderAsWritten(env) == Render(env)
  {
  }

  /** As written, every job that lets nothing escape starts with the
      prerender callback and fires exactly one terminal callback, last,
      reporting the body's outcome as the corrected version does. */
  lemma AsWrittenReportsOnceUnlessEscaping(env: Env)
    requires RenderAsWritten(env).escaped.None?
    ensures var r := RenderAsWritten(env);
      && |r.events| >= 2
      && r.events[0] == Notified(PrerenderStart(PayloadOf(env, Initial(env), P.PrerenderStarting)))
      && OneTerminalLast(r.events)
      && (Succeeded(r) <==> Body(env).Next?)
      && (Body(env).Raised? ==> FailedWith(r, Normalize(Body(env).exception)))
  {
    GuardOnlyMattersWhenEscaping(env);
    RenderFiresExactlyOneTerminalCallback(env);
  }
}
