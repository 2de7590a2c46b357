/** Output tokens of a render job (`RenderJobInfo._get_output_tokens`):
    the name -> value table that the output filename template is expanded
    against. */
module Tokens {
  import opened Text
  import Fps

  const Completed := "COMPLETED"

  /** The fields of the print job the tokens are derived from. */
  datatype PrintJob = PrintJob(
    jobGuid: string,
    printFileName: string,
    printEndState: string,
    secondsAdded: real)

  /** Time-derived token values. `time.strftime`, `time.time()` and the
      rounding of timestamps happen outside the model; their texts are given. */
  datatype TimeTexts = TimeTexts(
    printEndTime: string,
    printEndTimestamp: string,
    printStartTime: string,
    printStartTimestamp: string,
    dateTimestamp: string,
    timeAdded: string)

  /** The three failure-flag tokens. */
  datatype FailureTokens = FailureTokens(flag: string, separator: string, state: string) {
    function Joined(): string {
      flag + separator + state
    }
  }

  /** FAILEDFLAG, FAILEDSEPARATOR and FAILEDSTATE. They are functions of the
      end state alone; all three are empty exactly for a completed print. */
  function FailureTokensOf(endState: string): (r: FailureTokens)
    ensures r.flag == "" <==> endState == Completed
    ensures r.separator == "" <==> endState == Completed
    ensures endState == Completed ==> r.state == ""
    ensures endState != Completed ==> r.flag == "FAILED" && r.separator == "_" && r.state == endState
    ensures r.Joined() == (if endState == Completed then "" else "FAILED_" + endState)
  {
    FailureTokens(
      if endState != Completed then "FAILED" else "",
      if endState != Completed then "_" else "",
      if endState == Completed then "" else endState)
  }

  const TokenNames: set<string> := {
    "FAILEDFLAG", "FAILEDSEPARATOR", "FAILEDSTATE", "PRINTSTATE", "GCODEFILENAME",
    "PRINTENDTIME", "PRINTENDTIMESTAMP", "PRINTSTARTTIME", "PRINTSTARTTIMESTAMP",
    "DATETIMESTAMP", "DATADIRECTORY", "TIMEADDED", "SNAPSHOTCOUNT", "FPS"}

  /** The token table built when the job descriptor is constructed.
      SNAPSHOTCOUNT and FPS start as the placeholder 0. */
  function OutputTokens(job: PrintJob, times: TimeTexts, dataDirectory: string): (t: map<string, string>)
    ensures t.Keys == TokenNames
    ensures var f := FailureTokensOf(job.printEndState);
      t["FAILEDFLAG"] == f.flag && t["FAILEDSEPARATOR"] == f.separator && t["FAILEDSTATE"] == f.state
    ensures t["PRINTSTATE"] == job.printEndState && t["GCODEFILENAME"] == job.printFileName
    ensures t["DATADIRECTORY"] == dataDirectory
    ensures t["SNAPSHOTCOUNT"] == "0" && t["FPS"] == "0"
  {
    var f := FailureTokensOf(job.printEndState);
    map[
      "FAILEDFLAG" := f.flag,
      "FAILEDSEPARATOR" := f.separator,
      "FAILEDSTATE" := f.state,
      "PRINTSTATE" := job.printEndState,
      "GCODEFILENAME" := job.printFileName,
      "PRINTENDTIME" := times.printEndTime,
      "PRINTENDTIMESTAMP" := times.printEndTimestamp,
      "PRINTSTARTTIME" := times.printStartTime,
      "PRINTSTARTTIMESTAMP" := times.printStartTimestamp,
      "DATETIMESTAMP" := times.dateTimestamp,
      "DATADIRECTORY" := dataDirectory,
      "TIMEADDED" := times.timeAdded,
      "SNAPSHOTCOUNT" := "0",
      "FPS" := "0"]
  }

  /** Two print jobs with the same end state get the same failure tokens,
      whatever their other fields. */
  lemma FailureTokensDependOnEndStateOnly(
    j1: PrintJob, t1: TimeTexts, d1: string, j2: PrintJob, t2: TimeTexts, d2: string)
    requires j1.printEndState == j2.printEndState
    ensures var a, b := OutputTokens(j1, t1, d1), OutputTokens(j2, t2, d2);
      a["FAILEDFLAG"] == b["FAILEDFLAG"] && a["FAILEDSEPARATOR"] == b["FAILEDSEPARATOR"]
      && a["FAILEDSTATE"] == b["FAILEDSTATE"]
  {
  }

  /** `_read_snapshot_metadata` writes the frame count into SNAPSHOTCOUNT. */
  function WithSnapshotCount(t: map<string, string>, count: nat): (r: map<string, string>)
    ensures r.Keys == t.Keys + {"SNAPSHOTCOUNT"}
    ensures AllDigits(r["SNAPSHOTCOUNT"]) && ParseNat(r["SNAPSHOTCOUNT"]) == count
    ensures forall k :: k in t && k != "SNAPSHOTCOUNT" ==> r[k] == t[k]
  {
    ParseNatToString(count);
    t["SNAPSHOTCOUNT" := NatToString(count)]
  }

  /** `_calculate_fps` writes `int(math.ceil(fps))` into FPS. */
  function WithFps(t: map<string, string>, fps: real): (r: map<string, string>)
    ensures r.Keys == t.Keys + {"FPS"}
    ensures "FPS" in r
    ensures var c := Fps.Ceil(fps); (c as real) - 1.0 < fps <= c as real && r["FPS"] == IntToString(c)
    ensures forall k :: k in t && k != "FPS" ==> r[k] == t[k]
  {
    t["FPS" := IntToString(Fps.Ceil(fps))]
  }
}
