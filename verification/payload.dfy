/** The snapshot handed to every lifecycle callback (`RenderingCallbackArgs`)
    and its path accessors. */
module Payload {
  import opened Wrappers
  import opened Errors
  import Naming

  /** The reason strings the render job passes to its callbacks. */
  datatype Reason = PrerenderStarting | RenderStarting | RenderComplete | RenderFailed {
    function Text(): string {
      match this
      case PrerenderStarting => "Prerender is starting."
      case RenderStarting => "Starting to render timelapse."
      case RenderComplete => "Timelapse rendering is complete."
      case RenderFailed => "The render process failed."
    }
  }

  datatype Payload = Payload(
    reason: Reason,
    returnCode: int,
    jobId: string,
    jobDirectory: string,
    snapshotDirectory: string,
    renderingDirectory: string,
    renderingFilename: string,
    renderingExtension: string,
    synchronizedDirectory: string,
    synchronizedFilename: string,
    synchronize: bool,
    snapshotCount: Option<int>,
    secondsAddedToPrint: real,
    jobNumber: int,
    jobsRemaining: int,
    cameraName: string,
    beforeRenderError: Option<RenderError>,
    afterRenderError: Option<RenderError>)
  {
    /** `get_rendering_filename`. */
    function RenderingFile(): string {
      renderingFilename + "." + renderingExtension
    }

    /** `get_synchronization_filename`. */
    function SynchronizationFile(): string {
      synchronizedFilename + "." + renderingExtension
    }

    /** `get_rendering_path`. */
    function RenderingPath(): (p: string)
      ensures p == Naming.FilePath(renderingDirectory, renderingFilename, renderingExtension)
      ensures p[..|renderingDirectory|] == renderingDirectory
      ensures p[|renderingDirectory|..] == RenderingFile()
    {
      renderingDirectory + RenderingFile()
    }

    /** `get_synchronization_path`. */
    function SynchronizationPath(): (p: string)
      ensures p == Naming.FilePath(synchronizedDirectory, synchronizedFilename, renderingExtension)
      ensures p[..|synchronizedDirectory|] == synchronizedDirectory
      ensures p[|synchronizedDirectory|..] == SynchronizationFile()
    {
      synchronizedDirectory + SynchronizationFile()
    }
  }
}
