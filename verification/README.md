# Octolapse timelapse rendering, modelled in Dafny

This project models the rendering core of the Octolapse OctoPrint plugin
(`octolapse/render.py`). Two pieces are modelled:

- The **rendering processor** (`RenderingProcessor.run`) is a background
  thread. It takes render jobs from a FIFO queue one at a time, numbers
  each job and tells it how many jobs are still queued. It runs the job and
  forwards the job's lifecycle callbacks. When a job leaves the queue empty,
  it clears the `is_processing` flag and sends the end-of-batch notice.
- The **render job** (`TimelapseRenderJob._render`) is the per-job pipeline.
  It does the following, in order:
  1. Fires the prerender callback and runs the before-render script.
  2. Counts the frames, computes the frame rate, and picks collision-free
     output names.
  3. Fires the render-start callback and creates the temporary directory.
  4. Checks the encoder path, the bitrate, the render directory and the
     watermark.
  5. Overlays text on the frames and pads them with pre-roll and post-roll
     frames.
  6. Runs the encoder, then the after-render script.
  7. Cleans up, and moves the file to OctoPrint's timelapse folder.
  8. Fires exactly one of the success and error callbacks.

The model is functional. Every outside effect is an input: the job's
`World` says what the filesystem holds and how scripts, the encoder, the
directory creation and the final move turn out. Library functions the code
calls are function-valued `Services` fields, left uninterpreted: float
formatting, `round_to`, `str.format` of the output and overlay templates,
`sarge.shell_quote`, Pillow's font loading and text extent, and
`os.path.join`. The second
`str.format` pass over the filter templates is modelled, because the
watermark path is pasted into those templates before that pass. A brace in
the path therefore changes the filter string or makes the render fail. The job state records an ordered log of events:
callbacks, script and encoder invocations, and temporary-directory changes.
Exceptions are a `Result`/`Step` value. A `RenderError` keeps its kind, a
structured message (its text is in `Errors.MessageText`) and its cause.

Modules, in dependency order:

- `Wrappers`: `Option` and `Result`.
- `Text`: stand-ins for the Python string built-ins the code uses.
- `Errors`: `RenderError`, its kinds and messages, and the normalisation in
  the `except` clause.
- `Formats`: the output-format tables.
- `Fps`: `_calculate_fps`.
- `Tokens`: the output tokens.
- `Naming`: `_set_outputs` and its collision loops.
- `Command`: the encoder command and the filter graph.
- `Overlay`: `add_overlay` and `_preprocess_images`.
- `Roll`: `_apply_pre_post_roll`.
- `Payload`: `RenderingCallbackArgs`.
- `Pipeline`: `_render` and its stages.
- `Processor`: `RenderingProcessor.run`.

Two facts about the code shape the model:

- **Frame rate used by the encoder.** The encoder and the roll arithmetic
  use the rounded and clamped rate stored in `_fps`: it gives `-framerate`,
  `-r` and the pre/post-roll frame counts (render.py:525-530, 871, 892,
  940-943). The unrounded quotient is never stored.
- **Clean-up on failure.** Failure clean-up can mask the original error;
  see Findings. `Pipeline.Render` is the corrected version, and the rest of
  the model uses it.

## Model

| member | source | states |
|---|---|---|
| Text.StripEmptyIffBlank | octolapse/render.py:366-368 | A script setting is skipped exactly when it consists of whitespace only. |
| Errors.Normalize | octolapse/render.py:727-733 | A `RenderError` reaches the error callback unchanged. Any other exception becomes a `render-error` with the unknown-error message, and its cause is the original exception. |
| Errors.EncoderReturnCodeReadable | octolapse/render.py:692-696 | The return-code message can be read back. The encoder's exit code parses out of the text right after the fixed prefix, and the message ends with the encoder's error output. |
| Formats.ExtensionOf | octolapse/render.py:902-911 | The container extension is looked up case-insensitively. Unknown formats give `mp4`, and the result is always one of the table's extensions. |
| Formats.VideoCodecOf | octolapse/render.py:913-922 | The codec is looked up case-insensitively. Unknown formats give `mpeg2video`, and the result is always one of the table's codecs. |
| Formats.TablesAgreeOnKnownFormats | octolapse/render.py:903-921 | The extension table and the codec table know the same formats, so a format gets both table entries or both defaults. |
| Formats.LookupsIgnoreCase | octolapse/render.py:911 | Two format names that agree after lower-casing give the same extension and the same codec. |
| Fps.CalculateFps | octolapse/render.py:520-545 | Fixed mode returns the configured rate. Duration mode rounds frames over seconds and then clamps it: above the maximum gives the maximum, otherwise below the minimum gives the minimum. A zero run length raises ZeroDivisionError. The result lies in [min, max] whenever min ≤ max. |
| Tokens.FailureTokensOf | octolapse/render.py:171-173 | A completed print gets three empty tokens. Any other end state gets FAILEDFLAG `FAILED`, FAILEDSEPARATOR `_` and FAILEDSTATE the end state itself, so the three joined are `FAILED_<state>`. |
| Tokens.OutputTokens | octolapse/render.py:166-185 | The table has exactly the fourteen token names. The failure tokens follow the end state, DATADIRECTORY is the data directory, and SNAPSHOTCOUNT and FPS hold the placeholder 0. |
| Tokens.WithSnapshotCount | octolapse/render.py:496-499 | SNAPSHOTCOUNT becomes decimal digits that read back as the frame count. Every other token is unchanged. |
| Tokens.WithFps | octolapse/render.py:547 | FPS becomes the ceiling of the frame rate, written in decimal. Every other token is unchanged. |
| Naming.CandidatePathInjective | octolapse/render.py:569-570 | Distinct suffix numbers give distinct candidate paths, so the collision loop never revisits a path. |
| Naming.CandidatesCount | octolapse/render.py:563-570 | The first n candidate paths are n distinct paths. This bounds the collision loop by the number of existing files. |
| Naming.CollisionSuffix | octolapse/render.py:561-570 | The loop settles on the least suffix whose path is free. Every smaller candidate exists, suffix 0 (the bare name) is chosen exactly when that file is free, and the suffix is at most the number of existing files. |
| Naming.SetOutputs | octolapse/render.py:549-589 | A missing DATADIRECTORY token is a KeyError. A template ValueError falls back to a fixed name, and other template exceptions propagate. On success, the render name and the synchronised name are each the collision loop's choice for the template-expanded name in their own folder, checked against the existing files. The render path is directory+name+"."+extension, neither the render path nor the synchronised path is an existing file, and the extension comes from the format table. |
| Naming.SyncNameIgnoresPrimaryCollision | octolapse/render.py:576-589 | The synchronised name starts again from the template-expanded name. When that name is free in the timelapse folder, it is used unchanged, whatever suffix the render directory needed. |
| Naming.CollisionExample | octolapse/render.py:561-570 | With `render.mp4` present, the name is `render_1`. With `render.mp4` and `render_1.mp4` present, it is `render_2`. |
| Command.EncoderPath | octolapse/render.py:307-312 | No path stays none. Otherwise the path is stripped. On Windows the result is the stripped path when that already starts and ends with a double quote, and the stripped path wrapped in double quotes otherwise, so it always starts and ends with one. Elsewhere it is the stripped path. |
| Command.EncoderPathQuotesOnce | octolapse/render.py:309-312 | Applying the path treatment to an already treated path changes nothing: quotes are never doubled. |
| Command.EncoderArguments | octolapse/render.py:938-953 | The command string is joined from nineteen words, each in its place: the encoder, `-framerate` and the frame rate, `-loglevel error`, `-i` and the quoted input pattern, `-threads` and the thread count in decimal, `-r` and the frame rate again, `-y`, `-b` and the bitrate, `-vcodec` and the codec for the format, `-vf` and the shell-quoted filter string, and last the quoted output file. |
| Command.EncoderArgumentsReadBack | octolapse/render.py:938-953 | Reading the words the command string is joined from, after the encoder, back as options, switches and outputs recovers every setting under its own option, in order, then the single `-y` switch, and the quoted output file as the only output, whatever text the values hold. |
| Command.EncoderCommand | octolapse/render.py:945-955 | Building the command raises exactly when building the filter string raises, with the same exception. Otherwise the command carries that filter string after `-vf`. |
| Command.FilterChainIsLinked | octolapse/render.py:968-982 | The filter chain starts with the pixel-format stage reading `[f0]`. Each stage writes the label the next stage reads, the last stage writes `[out]`, and no stage reads `[out]`. There is a second stage exactly when there is a watermark. |
| Command.FilterString | octolapse/render.py:968-984 | Each stage template is run through `str.format` a second time with its two labels, and the results are joined by "; ". When neither the pixel format nor the watermark path holds a brace, this gives exactly the linked filter graph. |
| Command.FilterStringWithoutWatermark | octolapse/render.py:968-986 | Without a watermark and with a brace-free pixel format, the filter string is `[f0] format=<pix_fmt> [out]`. |
| Command.FilterStringWithWatermark | octolapse/render.py:968-986 | With a brace-free watermark path, the format stage writes `[f1]`, which feeds the overlay anchored 10 pixels from the bottom-left corner. That stage writes `[out]`, and the two stages are joined by "; ". |
| Command.UnknownFieldInWatermark | octolapse/render.py:974-982 | A replacement field with a plain name in the watermark path, other than the two labels, makes the second formatting raise: IndexError for `{}` or a number, KeyError for any other name. |
| Command.LoneClosingBraceInWatermark | octolapse/render.py:974-982 | A single `}` in the watermark path, not followed by another, makes the second formatting raise ValueError. |
| Command.DoubledBraceInWatermark | octolapse/render.py:974-982 | A doubled brace in the watermark path reaches the encoder as a single brace: the filter string is the graph of the path with one brace fewer. |
| Command.WatermarkEscapeRoundTrip | octolapse/render.py:665-669 | The Windows watermark escaping loses nothing beyond the separator change. Undoing the colon escapes gives the path with backslashes turned into slashes. |
| Overlay.VerticalOffset | octolapse/render.py:837-848 | `top` adds nothing, `middle` centres the text within one pixel, and `bottom` puts the text's bottom on the image's bottom. Any other value is `overlay-text-valign`. |
| Overlay.HorizontalOffset | octolapse/render.py:849-860 | `left` adds nothing, `center` centres the text within one pixel, and `right` puts the text's right edge on the image's. Any other value is `overlay-text-halign`. |
| Overlay.AddOverlay | octolapse/render.py:814-866 | An empty template returns the frame untouched. Otherwise the overlay succeeds exactly when the template expands, the font path is non-empty, the font loads and both alignments are valid. A formatting exception propagates, an empty font path is `overlay-font`, a font that does not load is IOError, and a bad valign is reported before a bad halign. On success the drawn text is the expanded template, the frame keeps its size, and the text sits at the configured position plus the alignment offsets. |
| Overlay.MoveFramesSpec | octolapse/render.py:746-757 | Without metadata, frames 0..count-1 are moved unmodified. Moving fails exactly when one of them is missing. |
| Overlay.OverlayFramesSpec | octolapse/render.py:759-810 | From any record on, the pass succeeds exactly when every later record's frame is present and its outcome succeeds. A record whose number equals its index gets `add_overlay`'s frame, and any other record's frame is moved unchanged. Exactly those indices are added, and nothing already written changes. |
| Overlay.Preprocess | octolapse/render.py:744-810 | Without metadata, the working directory holds exactly frames 0..count-1, unmodified, and preprocessing fails exactly when one is missing. An empty metadata list raises IndexError. With metadata, it holds exactly one frame per record index. Frame k is the overlaid frame when record k's number is k, with the elapsed time measured from the first record, and the captured frame otherwise. Preprocessing fails exactly when a frame is missing or one overlay fails. With an empty template, the frames are exactly the captured ones. |
| Roll.ShiftUpMovesEveryFrame | octolapse/render.py:879-885 | Renaming from the last frame down never overwrites a frame not yet moved. Frame k ends at k+n, and every file outside the moved range keeps its frame. |
| Roll.CopyRangeFills | octolapse/render.py:888-899 | Copying one frame into a range fills exactly that range with it and leaves every other file as it was. |
| Roll.PreRollLayout | octolapse/render.py:871-890 | After pre-roll, position i+pre holds original frame i and positions 0..pre-1 hold the first frame. Nothing else changes except new positions. |
| Roll.PrePostRollLayout | octolapse/render.py:868-899 | After both paddings, the originals sit at pre..pre+count-1. The first frame fills the pre-roll and the last frame fills the post-roll. |
| Roll.PrePostRoll | octolapse/render.py:868-899 | With no pre-roll and no post-roll frames, the directory is untouched. Pre-roll with no frames fails on the empty first-image path. The only failure is a missing file, because no copy ever targets its own source. |
| Roll.PreRollExample | octolapse/render.py:871-890 | Three pre-roll frames on five frames a..e give a a a a b c d e. |
| Pipeline.PayloadOf | octolapse/render.py:595-616 | The payload's rendering path and synchronisation path are the job's chosen outputs. It carries the stored script errors and frame count, and its return code is 0. |
| Payload.Payload.RenderingPath | octolapse/render.py:1050-1057 | The rendering path is the rendering directory followed by the rendering file name, which is the name, a dot and the extension. |
| Payload.Payload.SynchronizationPath | octolapse/render.py:1053-1060 | The synchronisation path is the synchronised directory followed by the synchronised name, a dot and the rendering extension. |
| Pipeline.ScriptError | octolapse/render.py:386-414 | A script leaves no error exactly when it exits with 0. A process error gives the could-not-run message with the process error as cause. A non-zero exit reports the error output (one trailing CRLF dropped) if there is any, otherwise the return code. |
| Pipeline.BeforeScript | octolapse/render.py:364-416 | A blank script changes nothing. Otherwise the stripped script runs with the camera name and snapshot locations, and its error is stored on the job, never raised. No other state changes. |
| Pipeline.AfterScript | octolapse/render.py:418-486 | Behaves like the before-render script. Its arguments also carry the render directory, name, extension and path, and the synchronised directory and name. |
| Pipeline.ImageCount | octolapse/render.py:488-518 | The frame count is the number of metadata rows. Without metadata it is the directory listing, or 0 when the snapshot directory is missing. |
| Pipeline.PreRender | octolapse/render.py:341-362 | 0 or 1 frames, and a computed rate below 1, raise `insufficient-images` with the outputs still unset. The frame count is recorded either way. On success the rate is at least 1, the outputs are those `_set_outputs` picks, and SNAPSHOTCOUNT and FPS are filled in. No event happens. |
| Pipeline.Start | octolapse/render.py:630-633 | The render-start callback fires with the current payload, then the temporary directory is created. |
| Pipeline.MakeOutputDirectory | octolapse/render.py:644-654 | Directory creation fails exactly when no file or directory exists at the render directory and `makedirs` raises. The failure is `create-render-path` naming the directory, with the cause attached. |
| Pipeline.WatermarkFor | octolapse/render.py:656-669 | A disabled watermark gives none. An enabled one must be selected (`watermark-path`) and must exist (`watermark-non-existent`). On Windows it is escaped. |
| Pipeline.Prepare | octolapse/render.py:635-669 | The checks run in the source's order. An unset encoder path is `ffmpeg_path`, then an unset bitrate is `no-bitrate`. Next, a failure to create the render directory is raised as it is, before the watermark is looked at. Only then is a watermark error raised. When everything passes, the bitrate is set, the render directory exists or was created, and the encoder path and watermark are the treated ones. |
| Pipeline.Encode | octolapse/render.py:677-696 | When building the command raises, that exception is raised before the encoder runs and no event happens. Otherwise the encoder runs with this job's arguments and succeeds exactly on exit code 0. A launch failure is `rendering-exception` with its cause. A non-zero exit is `return-code` carrying the code and the error output. |
| Pipeline.CleanupOnSuccess | octolapse/render.py:701-703 | After a successful encode, the temporary directory is deleted exactly when the profile asks for clean-up on success. |
| Pipeline.Synchronize | octolapse/render.py:705-725 | With sync off, nothing happens. Otherwise the rendered file moves to the synchronised path, and a failed move is `synchronizing-exception` naming the rendered file. |
| Pipeline.Finish | octolapse/render.py:727-742 | Success fires the success callback. Failure fires the error callback with the normalised exception, after deleting a created temporary directory when asked. As written (unguarded), deleting an already-deleted directory raises OSError out of `_render` and no terminal callback fires. |
| Pipeline.RenderAsWritten | octolapse/render.py:619-742 | As written, an exception escapes `_render` exactly when the body raised, clean-up on failure is on, and the temporary directory was already deleted. Then no terminal callback fires. Otherwise exactly one fires, as the last event. |
| Pipeline.Render | octolapse/render.py:619-742 | The corrected `_render`, which skips a directory that is already gone: nothing escapes, exactly one terminal callback fires as the last event, and the body's events come first. |
| Pipeline.RenderFiresExactlyOneTerminalCallback | octolapse/render.py:619-742 | For the corrected `Render`: every job starts with the prerender callback and ends with exactly one terminal callback, which is its last event, and nothing escapes. Success fires exactly when the `try` body completes; otherwise the error reported is the raised exception, normalised. |
| Pipeline.ForeignExceptionsBecomeRenderErrors | octolapse/render.py:727-733 | An exception that is not a `RenderError` reaches the error callback as `render-error` with the unknown-error message, and its cause is the exception. |
| Pipeline.TooFewFramesFailBeforeRendering | octolapse/render.py:341-360 | With fewer than two frames, or a rate below 1, the job fails with `insufficient-images` before the render-start callback. The encoder never runs, no temporary directory is created, and the outputs stay unset. |
| Pipeline.FailedJobsCleanUp | octolapse/render.py:734-737 | A failed job leaves no temporary directory behind when the profile asks for clean-up on failure. |
| Pipeline.SucceededJobsKeepTempUnlessCleaned | octolapse/render.py:701-703 | A successful job keeps its temporary directory exactly when the profile does not ask for clean-up on success. |
| Pipeline.SuccessPayloadNamesTheRenderedFiles | octolapse/render.py:705-740 | The success payload's rendering path is the file the encoder wrote, and no file was there before. When syncing, its synchronisation path is where that file was moved, and no file was there before either. |
| Pipeline.ScriptsNeverDecideTheOutcome | octolapse/render.py:364-486 | Changing how both scripts end changes neither the job's success nor its error. Everything but the event log and the stored script errors stays the same. |
| Pipeline.AsWrittenSyncFailureEscapes | octolapse/render.py:702-737 | As written, an exception escapes `_render` exactly when: both clean-up flags and sync are on, the body succeeded up to the move, and the move fails. Then no terminal callback fires. |
| Pipeline.GuardedSyncFailureIsReported | octolapse/render.py:705-742 | With the guard, the same failed move reaches the error callback as `synchronizing-exception` naming the rendered file, and nothing escapes. |
| Pipeline.GuardOnlyMattersWhenEscaping | octolapse/render.py:734-737 | Whenever the code as written does not escape, it behaves exactly like the guarded version. |
| Pipeline.AsWrittenReportsOnceUnlessEscaping | octolapse/render.py:619-742 | As written, every job from which nothing escapes starts with the prerender callback and ends with exactly one terminal callback, last. Success fires exactly when the body completes; otherwise the error reported is the normalised exception. |
| Processor.Step | octolapse/render.py:216-259 | A dead thread does nothing. An empty queue times out and clears the flag. Otherwise the head job leaves the queue, numbered one past the previous job count and told how many jobs remain. The thread survives exactly when nothing escapes the job. The flag stays set if the job escaped or jobs remain. The job's callbacks are forwarded, followed by the end notice exactly when the job did not escape and the queue is now empty. |
| Processor.Take | octolapse/render.py:219-226 | Taking a job removes the queue's head and changes nothing else but the counter, the flag and the dispatch log. The job keeps its fields except its number, which is the new job count, and its remaining count, which is the size of the queue left behind it. |
| Processor.Settle | octolapse/render.py:240-254 | After a job, its callbacks are forwarded in order. An escaping exception ends the thread with the flag unchanged. A job that leaves the queue empty clears the flag and sends the end notice. The queue, the counter and the dispatch log are unchanged. |
| Processor.StepKeepsFifo | octolapse/render.py:216-226 | Each pass of the loop keeps the jobs dispatched, followed by the queue, equal to the jobs enqueued in order, with the i-th dispatched job numbered i+1. |
| Processor.DriveIsFifo | octolapse/render.py:216-226 | At every point, the jobs dispatched so far followed by the queue are the jobs enqueued, in order. The i-th job dispatched is the i-th enqueued, numbered i+1. |
| Processor.GuardedThreadReportsEveryJob | octolapse/render.py:216-254 | With the guarded job, the thread never dies, and it forwards exactly one terminal callback per job it took. |
| Processor.BatchIsRenderedInOrder | octolapse/render.py:216-258 | A batch of K queued jobs is rendered in order: the i-th is numbered i+1 and told K-i-1 jobs remain. After K polls the queue is empty, `is_processing` is false and the end notice has been sent. |
| Processor.DeadThreadStaysStuck | octolapse/render.py:244-246 | Once an exception has ended the thread, nothing but the queue changes: no dispatch, no notice, and `is_processing` keeps its value forever. |
| Processor.EscapeKillsThread | octolapse/render.py:241-252 | A job that raises out of the render job is dispatched but forwards no terminal callback and no end notice. The thread dies with `is_processing` true. |
| Processor.AsWrittenSyncFailureKillsThread | octolapse/render.py:241-252 | As written, a job whose sync fails with both clean-ups on kills the rendering thread. Nothing is reported and `is_processing` stays true. |

## Left out

- File contents, image pixels and Pillow drawing are not modelled. A frame is a
  `Snapshot` id with a size; an overlaid frame records its text, position,
  alignment and colour.
- Library functions are uninterpreted inputs: `utility.round_to`,
  `str.format` of the output and overlay templates, `str()` of a float,
  `sarge.shell_quote`, `os.path.join`, whether Pillow loads a font, and
  Pillow's text extent. The model does not interpret those templates'
  language.
- Command.FormatFields: the filter templates' `str.format` pass is modelled
  for literal text, `{{`, `}}`, a lone `}` and replacement fields that are
  plain names. A field whose name holds a brace, `!`, `:`, `.` or `[`
  (conversions, format specs, attribute and index lookups, nested fields)
  has its outcome given by the `Services.formatField` input. Python 2 and 3
  treat those differently, and the code does not pin one down.
- The world's `files` and `directories` are given independently. The
  collision loops test `files` only, as `os.path.isfile` does. The render
  directory and watermark checks test either set, as `os.path.exists` does.
  Symbolic links and permission errors are not modelled.
- Text.Strip and Text.Lower: whitespace and lower-casing are ASCII only.
  This matches Python 2 byte strings. Python 3 `str.strip` also drops
  Unicode spaces such as U+00A0, and `str.lower` maps non-ASCII letters such
  as U+0130. The model does not follow those.
- Failures of `mkdtemp` and of the success-path `shutil.rmtree`
  (render.py:633, 703) are not modelled: the model always creates and
  deletes the temporary directory successfully. When `mkdtemp` raises,
  `temp_rendering_dir` stays None, so the failure clean-up skips it and the
  error callback fires as for any other exception. When the success-path
  `rmtree` raises, it may leave the directory partly deleted. Whether the
  failure clean-up's second `rmtree` then raises depends on the filesystem,
  which the model does not describe.
- Time formatting and clocks (`time.strftime`, `time.time()`, the timestamp
  rounding behind the PRINT*/DATETIMESTAMP/TIMEADDED tokens and the overlay's
  `current_time`/`time_elapsed`) are given as texts.
- CSV parsing of the metadata file is left out: metadata is given as parsed
  records or as unreadable. `float()`/`int()` failures on malformed rows are
  not modelled.
- Tokens.OutputTokens: SNAPSHOTCOUNT and FPS start as the integer 0 in the
  code. The model writes the placeholder as the string "0", because the
  token table is string-valued.
- Concurrency is not modelled: the thread, `self.lock`, `render_job_lock`,
  and a job enqueued while another is being rendered (one `Poll` is atomic).
  The 5-second queue timeout is a `Poll` on an empty queue.
- `task_done()` bookkeeping and logging have no observable effect here and
  are left out.
- Exceptions raised by the callbacks themselves (`_notify_callback` and the
  plugin's handlers) are not modelled; callbacks are recorded events.
- `TimelapseRenderJob.process` is `_render` and is not modelled separately.
  The preview and template-validation helpers (`preview_overlay`,
  `is_rendering_template_valid`, `is_overlay_text_template_valid`) are not
  part of this model.
- The job descriptor's constructor is not modelled. It joins the job and
  snapshot directories and builds the filename format through
  `utility.get_snapshot_filename`, which is not part of this model; those
  values are given.
- The directory-listing count of `_read_snapshot_metadata` is whatever
  `os.listdir` returns; the model takes it from the world (`listedFiles`)
  and does not relate it to the frames present.
- The overlay position and colour settings are taken already parsed. The JSON decoding of string-valued settings is not modelled.
- Overlay.AddOverlay: opening a captured frame with `Image.open`
  (render.py:785) and saving the overlaid frame (render.py:801) never fail
  in the model. A missing frame file is modelled (IOError); an unreadable
  or unwritable one is not, because file contents are not modelled.
- Command.EncoderArguments: the model stops at the word list. The join into
  one command string (render.py:955) and `sarge`'s parsing of that string
  (render.py:686-687) are not modelled. A value holding a space or a quote,
  such as a non-Windows encoder path with a space or a bitrate with a
  space, can reach the encoder as different words than the list holds.
- Integer division in `add_overlay` is floor division on non-negative sizes
  in Python 2. Dafny's `/` agrees there, so nothing is lost.

## Findings

| source | as written | input that shows it | evidently intended | confidence | as-written member | corrected member |
|---|---|---|---|---|---|---|
| octolapse/render.py:702-737 | On failure, the `except` clause deletes `temp_rendering_dir` whenever clean-up on failure is on and the directory was ever created. It does not check whether the success path already deleted it. | cleanup_after_render_complete, cleanup_after_render_fail and sync_with_timelapse all on, and the final `shutil.move` raises. `rmtree` runs at line 703, the move fails at line 717, and `rmtree` at line 737 raises OSError inside the handler. The exception leaves `_render` without any terminal callback and re-raises out of `RenderingProcessor.run`, ending the thread with `is_processing` stuck at true. | Failure clean-up is best effort and skips a directory that is already gone, so the error callback reports `synchronizing-exception` and the thread keeps serving the queue. | not executed | Pipeline.AsWrittenSyncFailureEscapes | Pipeline.GuardedSyncFailureIsReported |
