/** The render pipeline's error vocabulary (class `RenderError` in
    octolapse/render.py) and the exceptions that travel through `_render`. */
module Errors {
  import opened Wrappers
  import Text

  /** The closed set of `RenderError.type` strings the pipeline raises. */
  datatype ErrorKind =
    | InsufficientImages
    | FfmpegPath
    | NoBitrate
    | CreateRenderPath
    | WatermarkPath
    | WatermarkNonExistent
    | RenderingException
    | ReturnCode
    | SynchronizingException
    | BeforeRenderScriptError
    | AfterRenderScriptError
    | OverlayFont
    | OverlayTextValign
    | OverlayTextHalign
    | UnknownRenderError

  /** The string the source stores in `RenderError.type`. */
  function KindName(k: ErrorKind): string {
    match k
    case InsufficientImages => "insufficient-images"
    case FfmpegPath => "ffmpeg_path"
    case NoBitrate => "no-bitrate"
    case CreateRenderPath => "create-render-path"
    case WatermarkPath => "watermark-path"
    case WatermarkNonExistent => "watermark-non-existent"
    case RenderingException => "rendering-exception"
    case ReturnCode => "return-code"
    case SynchronizingException => "synchronizing-exception"
    case BeforeRenderScriptError => "before_render_script_error"
    case AfterRenderScriptError => "after_render_script_error"
    case OverlayFont => "overlay-font"
    case OverlayTextValign => "overlay-text-valign"
    case OverlayTextHalign => "overlay-text-halign"
    case UnknownRenderError => "render-error"
  }

  /** The human-readable message of a `RenderError`, kept structured: the
      variable parts are fields, and `MessageText` renders the source's wording.
      `which` is "before" or "after" for the render scripts. */
  datatype Message =
    | NoSnapshots(camera: string)
    | SingleFrame
    | FpsBelowOne
    | FfmpegPathUnset
    | BitrateUnset
    | CannotCreateRenderPath(path: string)
    | WatermarkNotSelected
    | WatermarkMissing
    | EncoderFailed
    | EncoderReturnCode(returnCode: int, stderr: string)
    | SyncFailed(renderedPath: string)
    | ScriptCouldNotRun(which: string)
    | ScriptErrorOutput(which: string, output: string)
    | ScriptReturnCode(which: string, returnCode: int)
    | NoOverlayFont
    | InvalidValign(valign: string)
    | InvalidHalign(halign: string)
    | UnknownError

  /** The message text as the source writes it. */
  function MessageText(m: Message): string {
    match m
    case NoSnapshots(camera) => "No snapshots were found for the '" + camera + "' camera profile."
    case SingleFrame => "Only 1 frame was captured, cannot make a timelapse with a single frame."
    case FpsBelowOne =>
      "The calculated FPS is below 1, which is not allowed. "
      + "Please check the rendering settings for Min and Max FPS "
      + "as well as the number of snapshots captured."
    case FfmpegPathUnset =>
      "Cannot create movie, path to ffmpeg is unset. "
      + "Please configure the ffmpeg path within the "
      + "'Features->Webcam & Timelapse' settings tab."
    case BitrateUnset =>
      "Cannot create movie, desired bitrate is unset. "
      + "Please set the bitrate within the Octolapse rendering profile."
    case CannotCreateRenderPath(path) =>
      "Render - An exception was thrown when trying to "
      + "create the rendering path at: " + path + ".  Please check "
      + "the logs (plugin_octolapse.log) for details."
    case WatermarkNotSelected => "Render - Watermark was enabled but no watermark file was selected."
    case WatermarkMissing => "Render - Watermark file does not exist."
    case EncoderFailed =>
      "ffmpeg failed during rendering of movie. "
      + "Please check plugin_octolapse.log for details."
    case EncoderReturnCode(rc, stderr) => ReturnCodePrefix + Text.IntToString(rc) + ": " + stderr
    case SyncFailed(renderedPath) =>
      "Octolapse has failed to synchronize the default timelapse plugin due"
      + " to an unexpected exception.  Check plugin_octolapse.log for more "
      + " information.  You should be able to find your video within your "
      + " OctoPrint  server here:<br/> '" + renderedPath + "'"
    case ScriptCouldNotRun(which) => "A script occurred while executing executing the " + which + "-render script"
    case ScriptErrorOutput(which, output) =>
      "The " + which + "-render script failed with the following error message: " + output
    case ScriptReturnCode(which, rc) =>
      "The " + which + "-render script returned " + Text.IntToString(rc) + ", which indicates an error."
    case NoOverlayFont => "No overlay font was specified when attempting to add overlay."
    case InvalidValign(valign) => "An invalid overlay text valign (" + valign + ") was specified."
    case InvalidHalign(halign) => "An invalid overlay text halign (" + halign + ") was specified."
    case UnknownError => "Unknown render error. Please check plugin_octolapse.log for more details."
  }

  const ReturnCodePrefix := "Could not render movie, got return code "

  /** The encoder's return-code message can be read back: the code follows
      the fixed prefix and the error output ends the message. */
  lemma EncoderReturnCodeReadable(rc: int, stderr: string)
    ensures var t := MessageText(EncoderReturnCode(rc, stderr)); var code := Text.IntToString(rc);
      && |ReturnCodePrefix| + |code| + 2 + |stderr| == |t|
      && Text.ParseInt(t[|ReturnCodePrefix|..|ReturnCodePrefix| + |code|]) == rc
      && t[|t| - |stderr|..] == stderr
  {
    var t := MessageText(EncoderReturnCode(rc, stderr));
    var code := Text.IntToString(rc);
    assert t == ReturnCodePrefix + code + ": " + stderr;
    assert t[|ReturnCodePrefix|..|ReturnCodePrefix| + |code|] == code;
    Text.IntToStringRoundTrip(rc);
  }

  /** A `RenderError`: kind, message and optional cause. */
  datatype RenderError = RenderError(kind: ErrorKind, message: Message, cause: Option<Exception>)

  /** Anything the pipeline can raise: a `RenderError`, or some other
      exception (IOError, KeyError, ZeroDivisionError, ...) named by its class. */
  datatype Exception = Raise(error: RenderError) | Foreign(name: string)

  /** The `except Exception` clause of `_render`: a `RenderError` is kept as
      is, anything else is wrapped as a `render-error` whose cause is the
      original exception. */
  function Normalize(e: Exception): (r: RenderError)
    ensures e.Raise? ==> r == e.error
    ensures e.Foreign? ==> r.kind == UnknownRenderError && r.message == UnknownError && r.cause == Some(e)
  {
    match e
    case Raise(err) => err
    case Foreign(_) => RenderError(UnknownRenderError, UnknownError, Some(e))
  }

  function Fail(kind: ErrorKind, message: Message): Exception {
    Raise(RenderError(kind, message, None))
  }

  function FailWithCause(kind: ErrorKind, message: Message, cause: Exception): Exception {
    Raise(RenderError(kind, message, Some(cause)))
  }
}
