/** Text-overlay geometry (`TimelapseRenderJob.add_overlay`) and the
    per-frame preprocessing that applies it (`_preprocess_images`). Pillow's
    drawing and compositing are not modelled: an overlaid frame records the
    text and where it is drawn, and the template expansion, font loading
    and text extent are inputs. */
module Overlay {
  import opened Wrappers
  import opened Text
  import opened Errors

  /** A frame: a captured snapshot, or a frame with text composited on it. */
  datatype Image =
    | Snapshot(id: nat, width: nat, height: nat)
    | WithText(base: Image, text: string, x: int, y: int, alignment: string, color: string)
  {
    function Width(): nat {
      match this
      case Snapshot(_, w, _) => w
      case WithText(b, _, _, _, _, _) => b.Width()
    }

    function Height(): nat {
      match this
      case Snapshot(_, _, h) => h
      case WithText(b, _, _, _, _, _) => b.Height()
    }

    /** The captured frame underneath all overlays. */
    function Original(): Image {
      match this
      case Snapshot(_, _, _) => this
      case WithText(b, _, _, _, _, _) => b.Original()
    }
  }

  /** The overlay fields of the rendering profile. */
  datatype OverlaySettings = OverlaySettings(
    textTemplate: string,
    fontPath: string,
    fontSize: nat,
    x: int,
    y: int,
    alignment: string,
    valign: string,
    halign: string,
    color: string)

  /** One row of the snapshot metadata file. */
  datatype FrameRecord = FrameRecord(snapshotNumber: int, fileName: string, timeTaken: real)

  /** The values a frame's overlay template is expanded against: the frame's
      own record and the capture time of the first frame (for the elapsed time). */
  datatype FrameVars = FrameVars(frame: FrameRecord, firstTimeTaken: real)

  /** Vertical alignment adjustment. Sizes are non-negative, so Dafny's `/`
      agrees with Python 2's integer division here. */
  function VerticalOffset(valign: string, imageHeight: nat, textHeight: nat): (r: Result<int, Exception>)
    ensures r.Ok? <==> valign in {"top", "middle", "bottom"}
    ensures valign == "top" ==> r == Ok(0)
    ensures valign == "middle" ==> r.Ok? && -1 <= 2 * r.value + textHeight - imageHeight <= 1
    ensures valign == "bottom" ==> r.Ok? && r.value + textHeight == imageHeight
    ensures r.Err? ==> r.error.Raise? && r.error.error.kind == OverlayTextValign
  {
    if valign == "top" then Ok(0)
    else if valign == "middle" then Ok(imageHeight / 2 - textHeight / 2)
    else if valign == "bottom" then Ok(imageHeight - textHeight)
    else Err(Fail(OverlayTextValign, InvalidValign(valign)))
  }

  /** Horizontal alignment adjustment. */
  function HorizontalOffset(halign: string, imageWidth: nat, textWidth: nat): (r: Result<int, Exception>)
    ensures r.Ok? <==> halign in {"left", "center", "right"}
    ensures halign == "left" ==> r == Ok(0)
    ensures halign == "center" ==> r.Ok? && -1 <= 2 * r.value + textWidth - imageWidth <= 1
    ensures halign == "right" ==> r.Ok? && r.value + textWidth == imageWidth
    ensures r.Err? ==> r.error.Raise? && r.error.error.kind == OverlayTextHalign
  {
    if halign == "left" then Ok(0)
    else if halign == "center" then Ok(imageWidth / 2 - textWidth / 2)
    else if halign == "right" then Ok(imageWidth - textWidth)
    else Err(Fail(OverlayTextHalign, InvalidHalign(halign)))
  }

  /** The library calls `add_overlay` makes: the overlay template's
      `str.format`, whether `ImageFont.truetype` loads a font from a path at
      a size, and Pillow's multi-line text extent (width, height) for a
      text, font path and size. */
  datatype Drawing = Drawing(
    formatText: (string, FrameVars) -> Formatted,
    fontLoads: (string, nat) -> bool,
    measure: (string, string, nat) -> (nat, nat))

  /** `add_overlay`. An empty template returns the frame untouched. Otherwise
      the template is expanded (any formatting exception propagates), a
      missing font path is `overlay-font`, a font that does not load is
      IOError, and the text is drawn at the configured position plus the
      valign and halign adjustments; valign is checked before halign. */
  function AddOverlay(image: Image, s: OverlaySettings, vars: FrameVars, d: Drawing)
    : (r: Result<Image, Exception>)
    ensures s.textTemplate == "" ==> r == Ok(image)
    ensures s.textTemplate != "" ==>
      (r.Ok? <==> d.formatText(s.textTemplate, vars).Formatted? && s.fontPath != ""
                  && d.fontLoads(s.fontPath, s.fontSize)
                  && s.valign in {"top", "middle", "bottom"} && s.halign in {"left", "center", "right"})
    ensures r.Ok? && s.textTemplate != "" ==>
      r.value.WithText? && r.value.base == image && d.formatText(s.textTemplate, vars) == Formatted(r.value.text)
      && r.value.Width() == image.Width() && r.value.Height() == image.Height()
    ensures r.Ok? && s.textTemplate != "" ==>
      var (w, h) := d.measure(r.value.text, s.fontPath, s.fontSize);
      VerticalOffset(s.valign, image.Height(), h) == Ok(r.value.y - s.y)
      && HorizontalOffset(s.halign, image.Width(), w) == Ok(r.value.x - s.x)
    ensures s.textTemplate != "" && d.formatText(s.textTemplate, vars) == FormatValueError
      ==> r == Err(Foreign("ValueError"))
    ensures s.textTemplate != "" && d.formatText(s.textTemplate, vars).FormatRaised?
      ==> r == Err(Foreign(d.formatText(s.textTemplate, vars).name))
    ensures s.textTemplate != "" && d.formatText(s.textTemplate, vars).Formatted? && s.fontPath == ""
      ==> r == Err(Fail(OverlayFont, NoOverlayFont))
    ensures (s.textTemplate != "" && d.formatText(s.textTemplate, vars).Formatted? && s.fontPath != ""
             && !d.fontLoads(s.fontPath, s.fontSize))
      ==> r == Err(Foreign("IOError"))
    ensures (s.textTemplate != "" && d.formatText(s.textTemplate, vars).Formatted? && s.fontPath != ""
             && d.fontLoads(s.fontPath, s.fontSize) && s.valign !in {"top", "middle", "bottom"})
      ==> r.Err? && r.error.Raise? && r.error.error.kind == OverlayTextValign
    ensures (s.textTemplate != "" && d.formatText(s.textTemplate, vars).Formatted? && s.fontPath != ""
             && d.fontLoads(s.fontPath, s.fontSize)
             && s.valign in {"top", "middle", "bottom"} && s.halign !in {"left", "center", "right"})
      ==> r.Err? && r.error.Raise? && r.error.error.kind == OverlayTextHalign
  {
    if s.textTemplate == "" then Ok(image)
    else
      match d.formatText(s.textTemplate, vars)
      case FormatValueError => Err(Foreign("ValueError"))
      case FormatRaised(name) => Err(Foreign(name))
      case Formatted(text) =>
        if s.fontPath == "" then
          Err(Fail(OverlayFont, NoOverlayFont))
        else if !d.fontLoads(s.fontPath, s.fontSize) then
          Err(Foreign("IOError"))
        else
          var (w, h) := d.measure(text, s.fontPath, s.fontSize);
          var dy :- VerticalOffset(s.valign, image.Height(), h);
          var dx :- HorizontalOffset(s.halign, image.Width(), w);
          Ok(WithText(image, text, s.x + dx, s.y + dy, s.alignment, s.color))
  }

  /** The metadata-less branch: frames 0 .. count-1 are moved unmodified
      into the working directory. */
  function MoveFrames(snapshots: map<int, Image>, i: nat, count: nat, acc: map<int, Image>)
    : Result<map<int, Image>, Exception>
    decreases count - i
  {
    if count <= i then Ok(acc)
    else if i !in snapshots then Err(Foreign("IOError"))
    else MoveFrames(snapshots, i + 1, count, acc[i := snapshots[i]])
  }

  /** The metadata branch from record i on: a record whose number equals its
      position gets the overlay; any other record's frame i is moved as is. */
  function OverlayFrames(
    snapshots: map<int, Image>, records: seq<FrameRecord>, firstTimeTaken: real, i: nat,
    acc: map<int, Image>, s: OverlaySettings, d: Drawing)
    : Result<map<int, Image>, Exception>
    decreases |records| - i
  {
    if |records| <= i then Ok(acc)
    else if i !in snapshots then Err(Foreign("IOError"))
    else if records[i].snapshotNumber == i then
      var framed :- AddOverlay(snapshots[i], s, FrameVars(records[i], firstTimeTaken), d);
      OverlayFrames(snapshots, records, firstTimeTaken, i + 1, acc[i := framed], s, d)
    else
      OverlayFrames(snapshots, records, firstTimeTaken, i + 1, acc[i := snapshots[i]], s, d)
  }

  /** What the metadata branch makes of record k on its own: the overlaid
      frame when the record's number is its position, otherwise the captured
      frame unchanged. */
  function FrameOutcome(
    snapshots: map<int, Image>, records: seq<FrameRecord>, firstTimeTaken: real, k: nat,
    s: OverlaySettings, d: Drawing)
    : Result<Image, Exception>
    requires k < |records| && k in snapshots
  {
    if records[k].snapshotNumber == k then AddOverlay(snapshots[k], s, FrameVars(records[k], firstTimeTaken), d)
    else Ok(snapshots[k])
  }

  /** `_preprocess_images`: builds the working directory. Without metadata the
      `count` frames are moved; with metadata each record's frame is
      overlaid or moved, the elapsed time measured from the first record
      (an empty record list fails reading that first capture time). */
  function Preprocess(
    snapshots: map<int, Image>, metadata: Option<seq<FrameRecord>>, count: nat, s: OverlaySettings, d: Drawing)
    : (r: Result<map<int, Image>, Exception>)
    ensures metadata.None? ==> (r.Ok? <==> forall k :: 0 <= k < count ==> k in snapshots)
    ensures metadata.None? && r.Ok? ==>
      forall k :: (k in r.value <==> 0 <= k < count) && (k in r.value ==> r.value[k] == snapshots[k])
    ensures metadata == Some([]) ==> r == Err(Foreign("IndexError"))
    ensures metadata.Some? && metadata.value != [] ==>
      var records := metadata.value;
      (r.Ok? <==> forall k :: 0 <= k < |records| ==>
                    k in snapshots && FrameOutcome(snapshots, records, records[0].timeTaken, k, s, d).Ok?)
      && (r.Ok? ==> forall k :: k in r.value <==> 0 <= k < |records|)
      && (r.Ok? ==> forall k :: 0 <= k < |records| ==>
                    k in snapshots && FrameOutcome(snapshots, records, records[0].timeTaken, k, s, d).Ok?
                    && r.value[k] == FrameOutcome(snapshots, records, records[0].timeTaken, k, s, d).value)
    ensures metadata.Some? && r.Ok? ==>
      forall k :: k in r.value ==> k in snapshots && r.value[k].Original() == snapshots[k].Original()
    ensures metadata.Some? && metadata.value != [] && s.textTemplate == "" ==>
      (r.Ok? <==> forall k :: 0 <= k < |metadata.value| ==> k in snapshots)
      && (r.Ok? ==> forall k :: k in r.value ==> r.value[k] == snapshots[k])
  {
    match metadata
    case None =>
      MoveFramesSpec(snapshots, 0, count, map[]);
      MoveFrames(snapshots, 0, count, map[])
    case Some(records) =>
      if |records| == 0 then Err(Foreign("IndexError"))
      else
        OverlayFramesSpec(snapshots, records, records[0].timeTaken, 0, map[], s, d);
        OverlayFrames(snapshots, records, records[0].timeTaken, 0, map[], s, d)
  }

  /** Moving frames keeps them unmodified and fills exactly 0 .. count-1 on
      top of what was already there; it fails exactly when a frame is missing. */
  lemma {:induction false} MoveFramesSpec(snapshots: map<int, Image>, i: nat, count: nat, acc: map<int, Image>)
    ensures MoveFrames(snapshots, i, count, acc).Ok? <==> forall k :: i <= k < count ==> k in snapshots
    ensures MoveFrames(snapshots, i, count, acc).Ok? ==>
      var r := MoveFrames(snapshots, i, count, acc).value;
      (forall k :: i <= k < count ==> k in r && r[k] == snapshots[k])
      && (forall k :: k in r <==> k in acc || i <= k < count)
      && (forall k :: k in acc && !(i <= k < count) ==> r[k] == acc[k])
    decreases count - i
  {
    if i < count && i in snapshots {
      MoveFramesSpec(snapshots, i + 1, count, acc[i := snapshots[i]]);
    }
  }

  /** The overlay pass from record i on succeeds exactly when every later
      record's frame is present and its own outcome succeeds. It then adds
      exactly the indices i .. |records|-1, each holding that record's
      outcome, and leaves every other entry as it was. */
  lemma {:induction false} OverlayFramesSpec(
    snapshots: map<int, Image>, records: seq<FrameRecord>, firstTimeTaken: real, i: nat,
    acc: map<int, Image>, s: OverlaySettings, d: Drawing)
    ensures var r := OverlayFrames(snapshots, records, firstTimeTaken, i, acc, s, d);
      r.Ok? <==> forall k :: i <= k < |records| ==>
                   k in snapshots && FrameOutcome(snapshots, records, firstTimeTaken, k, s, d).Ok?
    ensures var r := OverlayFrames(snapshots, records, firstTimeTaken, i, acc, s, d);
      r.Ok? ==>
        (forall k :: k in r.value <==> k in acc || i <= k < |records|)
        && (forall k :: i <= k < |records| ==>
              k in snapshots && FrameOutcome(snapshots, records, firstTimeTaken, k, s, d).Ok?
              && r.value[k] == FrameOutcome(snapshots, records, firstTimeTaken, k, s, d).value)
        && (forall k :: k in acc && !(i <= k < |records|) ==> r.value[k] == acc[k])
    decreases |records| - i
  {
    if i < |records| && i in snapshots {
      if records[i].snapshotNumber == i {
        var framed := AddOverlay(snapshots[i], s, FrameVars(records[i], firstTimeTaken), d);
        if framed.Ok? {
          OverlayFramesSpec(snapshots, records, firstTimeTaken, i + 1, acc[i := framed.value], s, d);
        }
      } else {
        OverlayFramesSpec(snapshots, records, firstTimeTaken, i + 1, acc[i := snapshots[i]], s, d);
      }
    }
  }
}
