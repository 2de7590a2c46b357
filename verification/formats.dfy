/** The output-format lookup tables of `TimelapseRenderJob`:
    `_get_extension_from_output_format` and `_get_vcodec_from_output_format`. */
module Formats {
  import opened Text

  const Extensions: map<string, string> := map[
    "avi" := "avi", "flv" := "flv", "h264" := "mp4", "vob" := "vob",
    "mp4" := "mp4", "mpeg" := "mpeg", "gif" := "gif"]

  const VideoCodecs: map<string, string> := map[
    "avi" := "mpeg4", "flv" := "flv1", "gif" := "gif", "h264" := "h264",
    "mp4" := "mpeg4", "mpeg" := "mpeg2video", "vob" := "mpeg2video"]

  const DefaultExtension := "mp4"
  const DefaultVideoCodec := "mpeg2video"

  /** Container extension for an output format, matched case-insensitively;
      an unknown format gives mp4. */
  function ExtensionOf(outputFormat: string): (ext: string)
    ensures Lower(outputFormat) in Extensions ==> ext == Extensions[Lower(outputFormat)]
    ensures Lower(outputFormat) !in Extensions ==> ext == DefaultExtension
    ensures ext in Extensions.Values
  {
    var key := Lower(outputFormat);
    assert Extensions["mp4"] == DefaultExtension;
    if key in Extensions then Extensions[key] else DefaultExtension
  }

  /** Video codec for an output format, matched case-insensitively;
      an unknown format gives mpeg2video. */
  function VideoCodecOf(outputFormat: string): (codec: string)
    ensures Lower(outputFormat) in VideoCodecs ==> codec == VideoCodecs[Lower(outputFormat)]
    ensures Lower(outputFormat) !in VideoCodecs ==> codec == DefaultVideoCodec
    ensures codec in VideoCodecs.Values
  {
    var key := Lower(outputFormat);
    assert VideoCodecs["mpeg"] == DefaultVideoCodec;
    if key in VideoCodecs then VideoCodecs[key] else DefaultVideoCodec
  }

  /** Both tables recognise the same seven formats, so a format gets either
      both of its table entries or both defaults. */
  lemma TablesAgreeOnKnownFormats(outputFormat: string)
    ensures Lower(outputFormat) in Extensions <==> Lower(outputFormat) in VideoCodecs
  {
  }

  /** The lookups ignore letter case: "MP4", "Mp4" and "mp4" are one format. */
  lemma LookupsIgnoreCase(a: string, b: string)
    requires Lower(a) == Lower(b)
    ensures ExtensionOf(a) == ExtensionOf(b) && VideoCodecOf(a) == VideoCodecOf(b)
  {
  }

  lemma {:induction false} LookupOfLowered(outputFormat: string)
    ensures ExtensionOf(Lower(outputFormat)) == ExtensionOf(outputFormat)
    ensures VideoCodecOf(Lower(outputFormat)) == VideoCodecOf(outputFormat)
  {
    LowerIdempotent(outputFormat);
  }
}
