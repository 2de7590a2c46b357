/** Frame-rate computation and the frame-count gate of `_pre_render`
    (`TimelapseRenderJob._calculate_fps`). */
module Fps {
  import opened Wrappers
  import opened Errors

  /** `math.ceil`. */
  function Ceil(r: real): (c: int)
    ensures (c as real) - 1.0 < r <= c as real
  {
    -((-r).Floor)
  }

  /** Python's `int(x)` on a float: truncation toward zero. */
  function Trunc(r: real): (t: int)
    ensures 0.0 <= r ==> 0 <= t && t as real <= r < t as real + 1.0
    ensures r < 0.0 ==> t <= 0 && (t as real) - 1.0 < r <= t as real
  {
    if r >= 0.0 then r.Floor else -((-r).Floor)
  }

  /** The rendering-profile fields `_calculate_fps` reads. */
  datatype FpsSettings = FpsSettings(
    calculationType: string,
    fps: real,
    runLengthSeconds: real,
    minFps: real,
    maxFps: real)

  /** `_calculate_fps`. In duration mode the frame rate is the frame count
      over the target run length, passed through `roundTo` (the source's
      `utility.round_to(.., 0.001)`, left uninterpreted), then clamped: above
      `maxFps` gives `maxFps`, otherwise below `minFps` gives `minFps`. A zero
      run length raises ZeroDivisionError. Any other mode uses the configured
      frame rate unchanged. */
  function CalculateFps(s: FpsSettings, imageCount: nat, roundTo: real -> real): (r: Result<real, Exception>)
    ensures s.calculationType != "duration" ==> r == Ok(s.fps)
    ensures s.calculationType == "duration" ==> (r.Err? <==> s.runLengthSeconds == 0.0)
    ensures r.Err? ==> r.error == Foreign("ZeroDivisionError")
    ensures s.calculationType == "duration" && r.Ok? && s.minFps <= s.maxFps ==>
      s.minFps <= r.value <= s.maxFps
    ensures s.calculationType == "duration" && r.Ok? ==>
      var raw := roundTo(imageCount as real / s.runLengthSeconds);
      (s.minFps <= raw <= s.maxFps ==> r.value == raw)
      && (raw > s.maxFps ==> r.value == s.maxFps)
      && (raw <= s.maxFps && raw < s.minFps ==> r.value == s.minFps)
  {
    if s.calculationType == "duration" then
      if s.runLengthSeconds == 0.0 then Err(Foreign("ZeroDivisionError"))
      else
        var raw := roundTo(imageCount as real / s.runLengthSeconds);
        if raw > s.maxFps then Ok(s.maxFps)
        else if raw < s.minFps then Ok(s.minFps)
        else Ok(raw)
    else Ok(s.fps)
  }
}
