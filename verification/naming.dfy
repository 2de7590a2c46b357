/** Output naming with `_N` collision avoidance (`TimelapseRenderJob._set_outputs`).
    The filesystem is a finite set of existing file paths. */
module Naming {
  import opened Wrappers
  import opened Text
  import opened Errors
  import Formats

  /** `"{0}{1}.{2}".format(prefix, name, ext)`. */
  function FilePath(prefix: string, name: string, ext: string): string {
    prefix + name + "." + ext
  }

  /** The n-th name tried: the original, then `original_1`, `original_2`, ... */
  function CandidateName(original: string, n: nat): string {
    if n == 0 then original else original + "_" + NatToString(n)
  }

  function CandidatePath(prefix: string, original: string, ext: string, n: nat): string {
    FilePath(prefix, CandidateName(original, n), ext)
  }

  /** Distinct suffix numbers give distinct paths. */
  lemma {:induction false} CandidatePathInjective(prefix: string, original: string, ext: string, a: nat, b: nat)
    requires CandidatePath(prefix, original, ext, a) == CandidatePath(prefix, original, ext, b)
    ensures a == b
  {
    var base := |prefix| + |original| + 1 + |ext|;
    assert |CandidatePath(prefix, original, ext, 0)| == base;
    if a != 0 && b != 0 {
      var p := prefix + original + "_";
      var sa, sb := NatToString(a), NatToString(b);
      var tail := "." + ext;
      assert CandidatePath(prefix, original, ext, a) == p + sa + tail;
      assert CandidatePath(prefix, original, ext, b) == p + sb + tail;
      assert |sa| == |sb|;
      assert (p + sa + tail)[|p|..|p| + |sa|] == sa;
      assert (p + sb + tail)[|p|..|p| + |sb|] == sb;
      NatToStringInjective(a, b);
    }
  }

  /** The paths of the first n candidates. */
  function Candidates(prefix: string, original: string, ext: string, n: nat): set<string> {
    set k | 0 <= k < n :: CandidatePath(prefix, original, ext, k)
  }

  lemma CandidatesStep(prefix: string, original: string, ext: string, n: nat)
    requires n > 0
    ensures Candidates(prefix, original, ext, n)
         == Candidates(prefix, original, ext, n - 1) + {CandidatePath(prefix, original, ext, n - 1)}
  {
    var last := CandidatePath(prefix, original, ext, n - 1);
    forall x | x in Candidates(prefix, original, ext, n)
      ensures x in Candidates(prefix, original, ext, n - 1) + {last}
    {
      var k :| 0 <= k < n && CandidatePath(prefix, original, ext, k) == x;
      if k < n - 1 { assert x in Candidates(prefix, original, ext, n - 1); }
    }
  }

  lemma LastCandidateIsNew(prefix: string, original: string, ext: string, n: nat)
    requires n > 0
    ensures CandidatePath(prefix, original, ext, n - 1) !in Candidates(prefix, original, ext, n - 1)
  {
    if CandidatePath(prefix, original, ext, n - 1) in Candidates(prefix, original, ext, n - 1) {
      var k :| 0 <= k < n - 1 && CandidatePath(prefix, original, ext, k) == CandidatePath(prefix, original, ext, n - 1);
      CandidatePathInjective(prefix, original, ext, k, n - 1);
    }
  }

  lemma {:induction false} CandidatesCount(prefix: string, original: string, ext: string, n: nat)
    ensures |Candidates(prefix, original, ext, n)| == n
  {
    if n > 0 {
      CandidatesCount(prefix, original, ext, n - 1);
      CandidatesStep(prefix, original, ext, n);
      LastCandidateIsNew(prefix, original, ext, n);
    } else {
      assert Candidates(prefix, original, ext, n) == {};
    }
  }

  lemma {:induction false} SubsetCardinality<T>(a: set<T>, b: set<T>)
    requires a <= b
    ensures |a| <= |b|
  {
    if a != {} {
      var x :| x in a;
      SubsetCardinality(a - {x}, b - {x});
    }
  }

  /** If the first n candidates all exist, there are at least n files. */
  lemma TakenBound(prefix: string, original: string, ext: string, existing: set<string>, n: nat)
    requires forall k :: 0 <= k < n ==> CandidatePath(prefix, original, ext, k) in existing
    ensures n <= |existing|
  {
    CandidatesCount(prefix, original, ext, n);
    SubsetCardinality(Candidates(prefix, original, ext, n), existing);
  }

  /** The probing loop of `_set_outputs`, from candidate n on. It stops
      because the candidate paths are pairwise distinct and only finitely many
      files exist. */
  function ProbeFrom(prefix: string, original: string, ext: string, existing: set<string>, n: nat): (r: nat)
    requires forall k :: 0 <= k < n ==> CandidatePath(prefix, original, ext, k) in existing
    ensures n <= r
    ensures CandidatePath(prefix, original, ext, r) !in existing
    ensures forall k :: 0 <= k < r ==> CandidatePath(prefix, original, ext, k) in existing
    decreases |existing| - n
  {
    if CandidatePath(prefix, original, ext, n) !in existing then n
    else
      TakenBound(prefix, original, ext, existing, n + 1);
      ProbeFrom(prefix, original, ext, existing, n + 1)
  }

  /** The suffix number the collision loop settles on: the least n whose
      candidate path is free (0 meaning the original name itself). */
  function CollisionSuffix(prefix: string, original: string, ext: string, existing: set<string>): (n: nat)
    ensures CandidatePath(prefix, original, ext, n) !in existing
    ensures forall k :: 0 <= k < n ==> CandidatePath(prefix, original, ext, k) in existing
    ensures n == 0 <==> FilePath(prefix, original, ext) !in existing
    ensures n <= |existing|
  {
    var found := ProbeFrom(prefix, original, ext, existing, 0);
    TakenBound(prefix, original, ext, existing, found);
    found
  }

  /** The name chosen for `original` under `prefix`. */
  function ResolveName(prefix: string, original: string, ext: string, existing: set<string>): string {
    CandidateName(original, CollisionSuffix(prefix, original, ext, existing))
  }

  const TemplateErrorFilename := "RenderingFilenameTemplateError"

  /** The output locations a job settles on. */
  datatype Outputs = Outputs(
    directory: string,
    filename: string,
    extension: string,
    filePath: string,
    syncDirectory: string,
    syncFilename: string)
  {
    function SyncPath(): string {
      FilePath(syncDirectory, syncFilename, extension)
    }
  }

  /** The template-expanded name before collision avoidance: a ValueError
      falls back to a fixed name, any other formatting exception propagates. */
  function OriginalFilename(f: Formatted): Result<string, Exception> {
    match f
    case Formatted(text) => Ok(text)
    case FormatValueError => Ok(TemplateErrorFilename)
    case FormatRaised(name) => Err(Foreign(name))
  }

  /** The render directory of `_set_outputs`: the data directory's
      `timelapse` sub-directory, with a trailing separator. */
  function OutputDirectory(dataDirectory: string, sep: char): string {
    dataDirectory + [sep] + "timelapse" + [sep]
  }

  /** `_set_outputs`. The render directory is `DATADIRECTORY + sep + "timelapse" + sep`
      (a missing DATADIRECTORY token is a KeyError); the synchronized directory
      is `syncFolder + sep`. The primary and the synchronized name are each
      resolved against the existing files starting from the same
      template-expanded name. */
  function SetOutputs(
    tokens: map<string, string>, template: string, outputFormat: string, syncFolder: string,
    sep: char, existing: set<string>, format: (string, map<string, string>) -> Formatted)
    : (r: Result<Outputs, Exception>)
    ensures "DATADIRECTORY" !in tokens ==> r == Err(Foreign("KeyError"))
    ensures r.Ok? ==> var o := r.value;
      && o.filePath == FilePath(o.directory, o.filename, o.extension)
      && o.filePath !in existing
      && o.SyncPath() !in existing
      && o.extension == Formats.ExtensionOf(outputFormat)
      && o.directory == OutputDirectory(tokens["DATADIRECTORY"], sep)
      && o.syncDirectory == syncFolder + [sep]
    ensures r.Ok? <==> "DATADIRECTORY" in tokens && OriginalFilename(format(template, tokens)).Ok?
    ensures r.Ok? ==> var o, original := r.value, OriginalFilename(format(template, tokens)).value;
      && o.filename == ResolveName(o.directory, original, o.extension, existing)
      && o.syncFilename == ResolveName(o.syncDirectory, original, o.extension, existing)
  {
    if "DATADIRECTORY" !in tokens then Err(Foreign("KeyError"))
    else
      var directory := OutputDirectory(tokens["DATADIRECTORY"], sep);
      var original :- OriginalFilename(format(template, tokens));
      var ext := Formats.ExtensionOf(outputFormat);
      var filename := ResolveName(directory, original, ext, existing);
      var syncDirectory := syncFolder + [sep];
      var syncFilename := ResolveName(syncDirectory, original, ext, existing);
      Ok(Outputs(directory, filename, ext, FilePath(directory, filename, ext), syncDirectory, syncFilename))
  }

  /** The two names are not chained: both come from the template-expanded
      name, so when that name is free in the synchronized folder it is used
      there unchanged, whatever suffix the render directory needed. */
  lemma SyncNameIgnoresPrimaryCollision(
    tokens: map<string, string>, template: string, outputFormat: string, syncFolder: string,
    sep: char, existing: set<string>, format: (string, map<string, string>) -> Formatted, original: string)
    requires "DATADIRECTORY" in tokens
    requires OriginalFilename(format(template, tokens)) == Ok(original)
    requires FilePath(syncFolder + [sep], original, Formats.ExtensionOf(outputFormat)) !in existing
    ensures SetOutputs(tokens, template, outputFormat, syncFolder, sep, existing, format).value.syncFilename == original
  {
  }

  /** Worked example: with `render.mp4` and `render_1.mp4` present, the
      next name is `render_2`; with only `render.mp4`, it is `render_1`. */
  lemma CollisionExample(dir: string)
    ensures ResolveName(dir, "render", "mp4", {dir + "render.mp4"}) == "render_1"
    ensures ResolveName(dir, "render", "mp4", {dir + "render.mp4", dir + "render_1.mp4"}) == "render_2"
  {
    assert NatToString(1) == "1" && NatToString(2) == "2";
    var e1 := {dir + "render.mp4"};
    assert CandidatePath(dir, "render", "mp4", 0) == dir + "render.mp4";
    assert CandidatePath(dir, "render", "mp4", 1) == dir + "render_1.mp4";
    assert CandidatePath(dir, "render", "mp4", 1) !in e1;
    var e2 := {dir + "render.mp4", dir + "render_1.mp4"};
    assert CandidatePath(dir, "render", "mp4", 2) == dir + "render_2.mp4";
    assert (dir + "render_2.mp4")[|dir| + 7] == '2';
    assert (dir + "render_1.mp4")[|dir| + 7] == '1';
    assert CandidatePath(dir, "render", "mp4", 2) !in e2;
  }
}
