/** Encoder invocation (`TimelapseRenderJob._create_ffmpeg_command_string`,
    `_create_filter_string`) and the Windows-specific quoting of the encoder
    path and the watermark path. */
module Command {
  import opened Wrappers
  import opened Text
  import opened Errors
  import Formats

  const DefaultPixelFormat := "yuv420p"

  /** One stage of the filter graph:
      `<lead>[<input>]<body> [<output>]`. */
  datatype Stage = Stage(lead: string, input: string, body: string, output: string) {
    function Text(): string {
      lead + "[" + input + "]" + body + " [" + output + "]"
    }
  }

  /** The filters the source can put in the chain, in order. */
  datatype Filter = PixelFormat(pixFmt: string) | WatermarkOverlay(path: string)

  function Filters(watermark: Option<string>, pixFmt: string): (fs: seq<Filter>)
    ensures |fs| == (if watermark.Some? then 2 else 1)
    ensures fs[0] == PixelFormat(pixFmt)
    ensures watermark.Some? ==> fs[1] == WatermarkOverlay(watermark.value)
  {
    [PixelFormat(pixFmt)] + (if watermark.Some? then [WatermarkOverlay(watermark.value)] else [])
  }

  /** Label i of a chain of n filters: `f0`, `f1`, ..., and `out` after the last. */
  function Label(i: nat, n: nat): string {
    if i < n then "f" + NatToString(i) else "out"
  }

  lemma FirstLabels(n: nat)
    ensures 0 < n ==> Label(0, n) == "f0"
    ensures 1 < n ==> Label(1, n) == "f1"
    ensures Label(n, n) == "out"
  {
    assert DigitChar(0) == '0' && DigitChar(1) == '1';
    assert NatToString(0) == "0" && NatToString(1) == "1";
  }

  function StageOf(f: Filter, input: string, output: string): Stage {
    match f
    case PixelFormat(pixFmt) => Stage("", input, " format=" + pixFmt, output)
    case WatermarkOverlay(path) =>
      Stage("movie=" + path + " [wm]; ", input, WatermarkBody, output)
  }

  /** Filter i reads label i and writes label i+1. */
  function Stages(fs: seq<Filter>): (ss: seq<Stage>)
    ensures |ss| == |fs|
    ensures forall i :: 0 <= i < |fs| ==> ss[i] == StageOf(fs[i], Label(i, |fs|), Label(i + 1, |fs|))
  {
    seq(|fs|, i requires 0 <= i < |fs| => StageOf(fs[i], Label(i, |fs|), Label(i + 1, |fs|)))
  }

  /** The texts of stages i.. of the chain, in order. */
  function StageTextsFrom(fs: seq<Filter>, i: nat): seq<string>
    requires i <= |fs|
    decreases |fs| - i
  {
    if i == |fs| then [] else [StageOf(fs[i], Label(i, |fs|), Label(i + 1, |fs|)).Text()] + StageTextsFrom(fs, i + 1)
  }

  /** The filter graph the templates describe: the stages joined by "; ".
      `FilterString` produces exactly this text when no brace in a filter's
      parameter disturbs the chaining pass. */
  function FilterGraph(watermark: Option<string>, pixFmt: string): string {
    Join(StageTextsFrom(Filters(watermark, pixFmt), 0), "; ")
  }

  /** The chain starts with the pixel-format stage reading `[f0]`, each stage
      writes the label the next one reads, the last writes `[out]`, and there
      is a second stage exactly when a watermark is given. */
  lemma FilterChainIsLinked(watermark: Option<string>, pixFmt: string)
    ensures var ss := Stages(Filters(watermark, pixFmt));
      && |ss| == (if watermark.Some? then 2 else 1)
      && ss[0] == Stage("", "f0", " format=" + pixFmt, ss[0].output)
      && (forall i :: 0 <= i < |ss| - 1 ==> ss[i].output == ss[i + 1].input)
      && ss[|ss| - 1].output == "out"
      && (forall i :: 0 <= i < |ss| ==> ss[i].input != "out")
  {
    FirstLabels(|Filters(watermark, pixFmt)|);
  }

  /** The graph written out for a chain without a watermark. */
  lemma FilterGraphWithoutWatermark(pixFmt: string)
    ensures FilterGraph(None, pixFmt) == "[f0] format=" + pixFmt + " [out]"
  {
    FirstLabels(1);
    var fs := Filters(None, pixFmt);
    var text := StageOf(PixelFormat(pixFmt), "f0", "out").Text();
    assert StageTextsFrom(fs, 0) == [text] + [];
    assert [text] + [] == [text];
    assert text == "" + "[" + "f0" + "]" + " format=" + pixFmt + " [" + "out" + "]";
    assert "" + "[" + "f0" + "]" + " format=" == "[f0] format=";
    assert " [" + "out" + "]" == " [out]";
  }

  const WatermarkBody := "[wm] overlay=10:main_h-overlay_h-10"

  lemma WatermarkBodyBraceFree()
    ensures BraceFree(WatermarkBody)
  {
  }

  lemma WatermarkStageText(path: string)
    ensures StageOf(WatermarkOverlay(path), "f1", "out").Text()
      == "movie=" + path + " [wm]; " + "[f1]" + WatermarkBody + " [out]"
  {
    assert "[" + "f1" + "]" == "[f1]";
    assert " [" + "out" + "]" == " [out]";
  }

  lemma FormatStageText(pixFmt: string, output: string)
    ensures StageOf(PixelFormat(pixFmt), "f0", output).Text() == "[f0] format=" + pixFmt + " [" + output + "]"
  {
    assert "" + "[" + "f0" + "]" + " format=" == "[f0] format=";
  }

  /** A watermarked graph is the format stage, "; ", then the overlay stage. */
  lemma FilterGraphParts(pixFmt: string, path: string)
    ensures FilterGraph(Some(path), pixFmt)
      == StageOf(PixelFormat(pixFmt), "f0", "f1").Text() + "; " + StageOf(WatermarkOverlay(path), "f1", "out").Text()
  {
    FirstLabels(2);
    var fs := Filters(Some(path), pixFmt);
    var first := StageOf(PixelFormat(pixFmt), "f0", "f1").Text();
    var second := StageOf(WatermarkOverlay(path), "f1", "out").Text();
    assert StageTextsFrom(fs, 1) == [second] + [];
    assert StageTextsFrom(fs, 0) == [first] + ([second] + []);
    var texts := [first, second];
    assert [first] + ([second] + []) == texts;
    assert texts[1..] == [texts[1]];
    assert Join(texts, "; ") == texts[0] + "; " + texts[1];
  }

  /** The graph written out for a watermarked chain: the format stage feeds
      the overlay anchored 10 pixels from the bottom-left corner. */
  lemma FilterGraphWithWatermark(pixFmt: string, path: string)
    ensures FilterGraph(Some(path), pixFmt)
      == "[f0] format=" + pixFmt + " [f1]" + "; "
         + "movie=" + path + " [wm]; " + "[f1]" + WatermarkBody + " [out]"
  {
    FilterGraphParts(pixFmt, path);
    FormatStageText(pixFmt, "f1");
    WatermarkStageText(path);
  }

  /** The two replacement fields the first `.format` leaves in each template. */
  const PrevField := "{prev_filter}"
  const NextField := "{next_filter}"

  predicate BraceFree(s: string) {
    '{' !in s && '}' !in s
  }

  /** A replacement field that is a plain name: no nested field, conversion
      (`!`), format spec (`:`), attribute (`.`) or index (`[`). */
  predicate PlainFieldName(name: string) {
    forall i :: 0 <= i < |name| ==> name[i] !in "{}!:.["
  }

  /** The outcome of a replacement field that is not a plain name, given its
      text and the keyword arguments. */
  type FieldLookup = (string, map<string, string>) -> Result<string, Exception>

  function Prepend(p: string, r: Result<string, Exception>): Result<string, Exception> {
    match r
    case Ok(s) => Ok(p + s)
    case Err(e) => Err(e)
  }

  /** The index of the `}` that closes a field, scanning from i with `depth`
      fields open; nested braces count. */
  function FieldEnd(s: string, i: nat, depth: nat): (j: Option<nat>)
    requires i <= |s|
    ensures j.Some? ==> i <= j.value < |s|
    decreases |s| - i
  {
    if i == |s| then None
    else if s[i] == '}' then (if depth <= 1 then Some(i) else FieldEnd(s, i + 1, depth - 1))
    else if s[i] == '{' then FieldEnd(s, i + 1, depth + 1)
    else FieldEnd(s, i + 1, depth)
  }

  /** The value of one replacement field. Only keyword arguments are passed,
      so an empty or all-digit name is a positional lookup failing with
      IndexError, and any other unknown name fails with KeyError. */
  function FieldValue(name: string, fields: map<string, string>, other: FieldLookup): Result<string, Exception> {
    if !PlainFieldName(name) then other(name, fields)
    else if name in fields then Ok(fields[name])
    else if AllDigits(name) then Err(Foreign("IndexError"))
    else Err(Foreign("KeyError"))
  }

  /** Python's `template.format(**fields)`, left to right: `{{` and `}}` are
      literal braces, a field is replaced by its value, and a single `}` or
      a `{` that is never closed raises ValueError. */
  function FormatFields(s: string, fields: map<string, string>, other: FieldLookup): Result<string, Exception>
    decreases |s|
  {
    if s == [] then Ok([])
    else if |s| >= 2 && (s[0] == '{' || s[0] == '}') && s[1] == s[0] then
      Prepend([s[0]], FormatFields(s[2..], fields, other))
    else if s[0] == '}' then Err(Foreign("ValueError"))
    else if s[0] == '{' then
      match FieldEnd(s, 1, 1)
      case None => Err(Foreign("ValueError"))
      case Some(j) =>
        var value :- FieldValue(s[1..j], fields, other);
        Prepend(value, FormatFields(s[j + 1..], fields, other))
    else Prepend([s[0]], FormatFields(s[1..], fields, other))
  }

  lemma PrependTwice(p: string, q: string, r: Result<string, Exception>)
    ensures Prepend(p, Prepend(q, r)) == Prepend(p + q, r)
  {
    if r.Ok? {
      assert p + (q + r.value) == (p + q) + r.value;
    }
  }

  /** Text without braces passes through the formatting unchanged. */
  lemma {:induction false} FormatLiteral(a: string, b: string, fields: map<string, string>, other: FieldLookup)
    requires BraceFree(a)
    ensures FormatFields(a + b, fields, other) == Prepend(a, FormatFields(b, fields, other))
    decreases |a|
  {
    if a == [] {
      assert a + b == b;
      if FormatFields(b, fields, other).Ok? {
        assert [] + FormatFields(b, fields, other).value == FormatFields(b, fields, other).value;
      }
    } else {
      var s := a + b;
      assert s[0] == a[0] && s[1..] == a[1..] + b;
      assert a == [a[0]] + a[1..];
      assert BraceFree(a[1..]);
      FormatLiteral(a[1..], b, fields, other);
      assert FormatFields(s, fields, other) == Prepend([a[0]], FormatFields(s[1..], fields, other));
      PrependTwice([a[0]], a[1..], FormatFields(b, fields, other));
    }
  }

  lemma FormatBraceFree(a: string, fields: map<string, string>, other: FieldLookup)
    requires BraceFree(a)
    ensures FormatFields(a, fields, other) == Ok(a)
  {
    FormatLiteral(a, [], fields, other);
    assert a + [] == a;
  }

  lemma {:induction false} FieldEndPlain(s: string, i: nat, close: nat)
    requires 1 <= i <= close < |s| && s[close] == '}'
    requires forall k :: i <= k < close ==> s[k] != '{' && s[k] != '}'
    ensures FieldEnd(s, i, 1) == Some(close)
    decreases close - i
  {
    if i < close {
      FieldEndPlain(s, i + 1, close);
    }
  }

  /** A plain field is replaced by its value, or raises its lookup error. */
  lemma FormatPlainField(name: string, b: string, fields: map<string, string>, other: FieldLookup)
    requires PlainFieldName(name)
    ensures FormatFields("{" + name + "}" + b, fields, other)
      == (var v := FieldValue(name, fields, other);
          if v.Ok? then Prepend(v.value, FormatFields(b, fields, other)) else Err(v.error))
  {
    var s := "{" + name + "}" + b;
    var close := |name| + 1;
    assert s[close] == '}';
    forall k | 1 <= k < close
      ensures s[k] != '{' && s[k] != '}'
    {
      assert s[k] == name[k - 1];
    }
    FieldEndPlain(s, 1, close);
    assert s[1..close] == name;
    assert s[close + 1..] == b;
  }

  /** The template a filter has after its first `.format`: its stage with the
      two fields in place of the labels. */
  function Template(f: Filter): string {
    StageOf(f, PrevField, NextField).Text()
  }

  function LabelFields(input: string, output: string): map<string, string> {
    map["prev_filter" := input, "next_filter" := output]
  }

  /** A stage's text, grouped as the formatting pass reads it. */
  lemma StageTextShape(lead: string, input: string, body: string, output: string)
    ensures Stage(lead, input, body, output).Text()
      == (lead + "[") + (input + (("]" + body + " [") + (output + "]")))
  {
  }

  /** A label field followed by text. */
  lemma FormatLabelField(field: string, key: string, b: string, fields: map<string, string>, other: FieldLookup)
    requires field == "{" + key + "}" && PlainFieldName(key) && key in fields
    ensures FormatFields(field + b, fields, other) == Prepend(fields[key], FormatFields(b, fields, other))
  {
    FormatPlainField(key, b, fields, other);
  }

  lemma FormatStageTail(body: string, input: string, output: string, other: FieldLookup)
    requires BraceFree(body)
    ensures var mid := "]" + body + " [";
      FormatFields(mid + (NextField + "]"), LabelFields(input, output), other)
      == Ok(mid + (output + "]"))
  {
    var m := LabelFields(input, output);
    var mid := "]" + body + " [";
    var tail := NextField + "]";
    assert FormatFields(tail, m, other) == Ok(output + "]") by {
      FormatLabelField(NextField, "next_filter", "]", m, other);
      FormatBraceFree("]", m, other);
    }
    assert BraceFree(mid);
    FormatLiteral(mid, tail, m, other);
  }

  /** The part of a stage template after its lead: both fields replaced. */
  lemma FormatStageFields(body: string, input: string, output: string, other: FieldLookup)
    requires BraceFree(body)
    ensures var mid := "]" + body + " [";
      FormatFields(PrevField + (mid + (NextField + "]")), LabelFields(input, output), other)
      == Ok(input + (mid + (output + "]")))
  {
    var mid := "]" + body + " [";
    FormatStageTail(body, input, output, other);
    FormatLabelField(PrevField, "prev_filter", mid + (NextField + "]"), LabelFields(input, output), other);
  }

  /** Formatting a stage template whose lead and body have no braces puts
      the labels in place of the fields. */
  lemma FormatStage(lead: string, body: string, input: string, output: string, other: FieldLookup)
    requires BraceFree(lead) && BraceFree(body)
    ensures FormatFields(Stage(lead, PrevField, body, NextField).Text(), LabelFields(input, output), other)
      == Ok(Stage(lead, input, body, output).Text())
  {
    var m := LabelFields(input, output);
    var rest := PrevField + (("]" + body + " [") + (NextField + "]"));
    assert FormatFields((lead + "[") + rest, m, other)
        == Ok((lead + "[") + (input + (("]" + body + " [") + (output + "]")))) by {
      FormatStageFields(body, input, output, other);
      assert BraceFree(lead + "[");
      FormatLiteral(lead + "[", rest, m, other);
    }
    StageTextShape(lead, PrevField, body, NextField);
    StageTextShape(lead, input, body, output);
  }

  /** A filter's parameter: the pixel format or the watermark path. */
  predicate ParameterBraceFree(f: Filter) {
    match f
    case PixelFormat(pixFmt) => BraceFree(pixFmt)
    case WatermarkOverlay(path) => BraceFree(path)
  }

  lemma FormatFilter(f: Filter, input: string, output: string, other: FieldLookup)
    requires ParameterBraceFree(f)
    ensures FormatFields(Template(f), LabelFields(input, output), other) == Ok(StageOf(f, input, output).Text())
  {
    match f
    case PixelFormat(pixFmt) =>
      FormatStage("", " format=" + pixFmt, input, output, other);
    case WatermarkOverlay(path) =>
      WatermarkBodyBraceFree();
      assert BraceFree("movie=" + path + " [wm]; ");
      FormatStage("movie=" + path + " [wm]; ", WatermarkBody, input, output, other);
  }

  /** The chaining pass of `_create_filter_string` over filters i.., in
      order; the first exception ends it. */
  function ChainFilters(fs: seq<Filter>, i: nat, other: FieldLookup): Result<seq<string>, Exception>
    requires i <= |fs|
    decreases |fs| - i
  {
    if i == |fs| then Ok([])
    else Cons(FormatFields(Template(fs[i]), LabelFields(Label(i, |fs|), Label(i + 1, |fs|)), other),
              ChainFilters(fs, i + 1, other))
  }

  /** A formatted text in front of the texts after it; the first exception wins. */
  function Cons(r: Result<string, Exception>, rest: Result<seq<string>, Exception>): Result<seq<string>, Exception> {
    if r.Err? then Err(r.error)
    else if rest.Err? then Err(rest.error)
    else Ok([r.value] + rest.value)
  }

  lemma {:induction false} ChainBraceFree(fs: seq<Filter>, i: nat, other: FieldLookup)
    requires i <= |fs|
    ensures (forall k :: i <= k < |fs| ==> ParameterBraceFree(fs[k]))
      ==> ChainFilters(fs, i, other) == Ok(StageTextsFrom(fs, i))
    decreases |fs| - i
  {
    if i < |fs| && forall k :: i <= k < |fs| ==> ParameterBraceFree(fs[k]) {
      FormatFilter(fs[i], Label(i, |fs|), Label(i + 1, |fs|), other);
      ChainBraceFree(fs, i + 1, other);
    }
  }

  /** `_create_filter_string`: each template is formatted a second time with
      its labels and the texts are joined by "; ". With no brace in the
      pixel format or the watermark path this is the filter graph. */
  function FilterString(watermark: Option<string>, pixFmt: string, other: FieldLookup): (r: Result<string, Exception>)
    ensures BraceFree(pixFmt) && (watermark.None? || BraceFree(watermark.value))
      ==> r == Ok(FilterGraph(watermark, pixFmt))
  {
    var fs := Filters(watermark, pixFmt);
    ChainBraceFree(fs, 0, other);
    var texts :- ChainFilters(fs, 0, other);
    Ok(Join(texts, "; "))
  }

  /** The filter string written out for a chain without a watermark. */
  lemma FilterStringWithoutWatermark(pixFmt: string, other: FieldLookup)
    requires BraceFree(pixFmt)
    ensures FilterString(None, pixFmt, other) == Ok("[f0] format=" + pixFmt + " [out]")
  {
    FilterGraphWithoutWatermark(pixFmt);
  }

  /** The filter string written out for a watermarked chain whose path has
      no braces. */
  lemma FilterStringWithWatermark(pixFmt: string, path: string, other: FieldLookup)
    requires BraceFree(pixFmt) && BraceFree(path)
    ensures FilterString(Some(path), pixFmt, other)
      == Ok("[f0] format=" + pixFmt + " [f1]" + "; "
            + "movie=" + path + " [wm]; " + "[f1]" + WatermarkBody + " [out]")
  {
    FilterGraphWithWatermark(pixFmt, path);
  }

  /** The overlay template after the path: a brace-free lead and the stage
      proper. */
  const WatermarkRest := Stage(" [wm]; ", PrevField, WatermarkBody, NextField).Text()

  /** Text in front of a stage's lead stays in front of its text. */
  lemma StageLeadShift(p: string, lead: string, input: string, body: string, output: string)
    ensures Stage(p + lead, input, body, output).Text() == p + Stage(lead, input, body, output).Text()
  {
  }

  lemma WatermarkTemplateSplit(path: string, input: string, output: string)
    ensures StageOf(WatermarkOverlay(path), input, output).Text()
      == ("movie=" + path) + Stage(" [wm]; ", input, WatermarkBody, output).Text()
  {
    StageLeadShift("movie=" + path, " [wm]; ", input, WatermarkBody, output);
  }

  /** Formatting the overlay template reads `movie=` and the brace-free
      start `a` of the path as they are, then goes on with the rest. */
  lemma FormatWatermarkTemplate(a: string, x: string, fields: map<string, string>, other: FieldLookup)
    requires BraceFree(a)
    ensures FormatFields(Template(WatermarkOverlay(a + x)), fields, other)
      == Prepend("movie=" + a, FormatFields(x + WatermarkRest, fields, other))
  {
    var t := Template(WatermarkOverlay(a + x));
    assert t == ("movie=" + a) + (x + WatermarkRest) by {
      WatermarkTemplateSplit(a + x, PrevField, NextField);
      assert ("movie=" + (a + x)) + WatermarkRest == ("movie=" + a) + (x + WatermarkRest);
    }
    assert BraceFree("movie=" + a);
    FormatLiteral("movie=" + a, x + WatermarkRest, fields, other);
  }

  /** A single `}` raises ValueError. */
  lemma FormatLoneClosingBrace(t: string, fields: map<string, string>, other: FieldLookup)
    requires !StartsWith(t, "}")
    ensures FormatFields("}" + t, fields, other) == Err(Foreign("ValueError"))
  {
    assert |"}"| == 1 && "}"[0] == '}';
    if t != [] {
      assert ("}" + t)[1] == t[0];
    }
  }

  /** A doubled brace is one literal brace. */
  lemma FormatDoubledBrace(c: char, t: string, fields: map<string, string>, other: FieldLookup)
    requires c == '{' || c == '}'
    ensures FormatFields([c, c] + t, fields, other) == Prepend([c], FormatFields(t, fields, other))
  {
    assert ([c, c] + t)[2..] == t;
  }

  /** With a watermark, the chaining pass formats the format stage, which
      cannot fail, then the overlay template. */
  lemma WatermarkChain(path: string, pixFmt: string, other: FieldLookup)
    requires BraceFree(pixFmt)
    ensures FilterString(Some(path), pixFmt, other)
      == Prepend(StageOf(PixelFormat(pixFmt), "f0", "f1").Text() + "; ",
                 FormatFields(Template(WatermarkOverlay(path)), LabelFields("f1", "out"), other))
  {
    var fs := Filters(Some(path), pixFmt);
    var first := StageOf(PixelFormat(pixFmt), "f0", "f1").Text();
    var second := FormatFields(Template(WatermarkOverlay(path)), LabelFields("f1", "out"), other);
    assert Label(0, 2) == "f0" && Label(1, 2) == "f1" && Label(2, 2) == "out" by {
      FirstLabels(2);
    }
    assert fs[1] == WatermarkOverlay(path);
    assert FormatFields(Template(fs[0]), LabelFields("f0", "f1"), other) == Ok(first) by {
      FormatFilter(fs[0], "f0", "f1", other);
    }
    assert ChainFilters(fs, 2, other) == Ok([]);
    assert ChainFilters(fs, 1, other) == Cons(second, Ok([]));
    assert ChainFilters(fs, 0, other) == Cons(Ok(first), Cons(second, Ok([])));
    if second.Ok? {
      var texts := [first] + ([second.value] + []);
      assert texts == [first, second.value];
      assert texts[1..] == [second.value];
      assert Join(texts, "; ") == first + "; " + second.value;
    }
  }

  lemma Regroup(a: string, p: string, q: string, r: string, t: string)
    ensures a + p + q + r + t == a + (p + q + r + t)
  {
  }

  lemma UnknownFieldInOverlay(a: string, name: string, b: string, other: FieldLookup)
    requires BraceFree(a) && PlainFieldName(name)
    requires name != "prev_filter" && name != "next_filter"
    ensures FormatFields(Template(WatermarkOverlay(a + ("{" + name + "}" + b))), LabelFields("f1", "out"), other)
      == Err(Foreign(if AllDigits(name) then "IndexError" else "KeyError"))
  {
    var x := "{" + name + "}" + b;
    var m := LabelFields("f1", "out");
    assert FormatFields(x + WatermarkRest, m, other) == Err(Foreign(if AllDigits(name) then "IndexError" else "KeyError")) by {
      assert x + WatermarkRest == "{" + name + "}" + (b + WatermarkRest);
      FormatPlainField(name, b + WatermarkRest, m, other);
    }
    FormatWatermarkTemplate(a, x, m, other);
  }

  /** A replacement field in the watermark path other than the two labels
      makes the chaining pass raise before the encoder is built: IndexError
      for `{}` or a number, KeyError for a name. */
  lemma UnknownFieldInWatermark(a: string, name: string, b: string, pixFmt: string, other: FieldLookup)
    requires BraceFree(a) && BraceFree(pixFmt) && PlainFieldName(name)
    requires name != "prev_filter" && name != "next_filter"
    ensures FilterString(Some(a + "{" + name + "}" + b), pixFmt, other)
      == Err(Foreign(if AllDigits(name) then "IndexError" else "KeyError"))
  {
    UnknownFieldInOverlay(a, name, b, other);
    Regroup(a, "{", name, "}", b);
    WatermarkChain(a + ("{" + name + "}" + b), pixFmt, other);
  }

  lemma NoLeadingClose(b: string, r: string)
    requires !StartsWith(b, "}") && |r| > 0 && r[0] != '}'
    ensures !StartsWith(b + r, "}")
  {
    var t := b + r;
    assert |"}"| == 1 && "}"[0] == '}';
    assert t[0] == (if b == [] then r[0] else b[0]);
  }

  lemma LoneCloseBefore(b: string, r: string, fields: map<string, string>, other: FieldLookup)
    requires !StartsWith(b, "}") && |r| > 0 && r[0] != '}'
    ensures FormatFields(("}" + b) + r, fields, other) == Err(Foreign("ValueError"))
  {
    assert ("}" + b) + r == "}" + (b + r);
    NoLeadingClose(b, r);
    FormatLoneClosingBrace(b + r, fields, other);
  }

  lemma LoneClosingBraceInOverlay(a: string, b: string, other: FieldLookup)
    requires BraceFree(a) && !StartsWith(b, "}")
    ensures FormatFields(Template(WatermarkOverlay(a + ("}" + b))), LabelFields("f1", "out"), other)
      == Err(Foreign("ValueError"))
  {
    WatermarkRestStart();
    LoneCloseBefore(b, WatermarkRest, LabelFields("f1", "out"), other);
    FormatWatermarkTemplate(a, "}" + b, LabelFields("f1", "out"), other);
  }

  /** A single `}` in the watermark path raises ValueError. */
  lemma LoneClosingBraceInWatermark(a: string, b: string, pixFmt: string, other: FieldLookup)
    requires BraceFree(a) && BraceFree(pixFmt) && !StartsWith(b, "}")
    ensures FilterString(Some(a + "}" + b), pixFmt, other) == Err(Foreign("ValueError"))
  {
    LoneClosingBraceInOverlay(a, b, other);
    WatermarkChain(a + ("}" + b), pixFmt, other);
    assert a + "}" + b == a + ("}" + b);
  }

  lemma WatermarkRestStart()
    ensures |WatermarkRest| > 0 && WatermarkRest[0] == ' '
  {
  }

  /** The overlay stage formatted with its labels, for a brace-free path. */
  lemma FormatWatermarkRest(other: FieldLookup)
    ensures FormatFields(WatermarkRest, LabelFields("f1", "out"), other)
      == Ok(Stage(" [wm]; ", "f1", WatermarkBody, "out").Text())
  {
    WatermarkBodyBraceFree();
    FormatStage(" [wm]; ", WatermarkBody, "f1", "out", other);
  }

  lemma DoubledBraceBeforeRest(c: char, b: string, other: FieldLookup)
    requires c == '{' || c == '}'
    requires BraceFree(b)
    ensures FormatFields(([c, c] + b) + WatermarkRest, LabelFields("f1", "out"), other)
      == Ok([c] + (b + Stage(" [wm]; ", "f1", WatermarkBody, "out").Text()))
  {
    var m := LabelFields("f1", "out");
    assert ([c, c] + b) + WatermarkRest == [c, c] + (b + WatermarkRest);
    FormatDoubledBrace(c, b + WatermarkRest, m, other);
    FormatLiteral(b, WatermarkRest, m, other);
    FormatWatermarkRest(other);
  }

  lemma RegroupAround(p: string, a: string, c: string, b: string, r: string)
    ensures (p + a) + (c + (b + r)) == (p + (a + c + b)) + r
  {
  }

  lemma DoubledBraceInOverlay(a: string, c: char, b: string, other: FieldLookup)
    requires c == '{' || c == '}'
    requires BraceFree(a) && BraceFree(b)
    ensures FormatFields(Template(WatermarkOverlay(a + ([c, c] + b))), LabelFields("f1", "out"), other)
      == Ok(StageOf(WatermarkOverlay(a + [c] + b), "f1", "out").Text())
  {
    DoubledBraceBeforeRest(c, b, other);
    FormatWatermarkTemplate(a, [c, c] + b, LabelFields("f1", "out"), other);
    WatermarkTemplateSplit(a + [c] + b, "f1", "out");
    RegroupAround("movie=", a, [c], b, Stage(" [wm]; ", "f1", WatermarkBody, "out").Text());
  }

  /** A doubled brace in the watermark path reaches the encoder as a single
      brace: the graph is that of the path with one brace fewer. */
  lemma DoubledBraceInWatermark(a: string, c: char, b: string, pixFmt: string, other: FieldLookup)
    requires c == '{' || c == '}'
    requires BraceFree(a) && BraceFree(b) && BraceFree(pixFmt)
    ensures FilterString(Some(a + [c, c] + b), pixFmt, other) == Ok(FilterGraph(Some(a + [c] + b), pixFmt))
  {
    DoubledBraceInOverlay(a, c, b, other);
    FilterGraphParts(pixFmt, a + [c] + b);
    WatermarkChain(a + ([c, c] + b), pixFmt, other);
    assert a + [c, c] + b == a + ([c, c] + b);
  }

  function Quoted(s: string): string {
    "\"" + s + "\""
  }

  /** The argument list of the encoder command around a filter string.
      `floatText` is Python's `str()` of a float and `shellQuote` is
      `sarge.shell_quote`, both left uninterpreted. */
  function EncoderArguments(
    ffmpeg: string, fps: real, inputPattern: string, outputFile: string, filter: string,
    threads: int, bitrate: string, outputFormat: string,
    floatText: real -> string, shellQuote: string -> string)
    : (args: seq<string>)
    ensures |args| == 19
    ensures args[0] == ffmpeg && args[1] == "-framerate" && args[2] == floatText(fps)
    ensures args[3] == "-loglevel" && args[4] == "error"
    ensures args[5] == "-i" && args[6] == Quoted(inputPattern)
    ensures args[7] == "-threads" && args[8] == IntToString(threads)
    ensures args[9] == "-r" && args[10] == floatText(fps) && args[11] == "-y"
    ensures args[12] == "-b" && args[13] == bitrate
    ensures args[14] == "-vcodec" && args[15] == Formats.VideoCodecOf(outputFormat)
    ensures args[16] == "-vf" && args[17] == shellQuote(filter)
    ensures args[18] == Quoted(outputFile)
  {
    [ffmpeg, "-framerate", floatText(fps), "-loglevel", "error", "-i", Quoted(inputPattern)]
    + ["-threads", IntToString(threads), "-r", floatText(fps), "-y", "-b", bitrate,
       "-vcodec", Formats.VideoCodecOf(outputFormat)]
    + ["-vf", shellQuote(filter)]
    + [Quoted(outputFile)]
  }

  /** `_create_ffmpeg_command_string`: the filter string is built first, and
      an exception it raises is the command's. */
  function EncoderCommand(
    ffmpeg: string, fps: real, inputPattern: string, outputFile: string, watermark: Option<string>,
    threads: int, bitrate: string, outputFormat: string,
    floatText: real -> string, shellQuote: string -> string, other: FieldLookup)
    : (r: Result<seq<string>, Exception>)
    ensures var f := FilterString(watermark, DefaultPixelFormat, other);
      && (r.Err? <==> f.Err?)
      && (r.Err? ==> r.error == f.error)
      && (r.Ok? ==> r.value == EncoderArguments(ffmpeg, fps, inputPattern, outputFile, f.value,
                                                threads, bitrate, outputFormat, floatText, shellQuote))
  {
    var filter :- FilterString(watermark, DefaultPixelFormat, other);
    Ok(EncoderArguments(ffmpeg, fps, inputPattern, outputFile, filter, threads, bitrate, outputFormat,
                        floatText, shellQuote))
  }

  /** The encoder's options that take a value. */
  const ValueOptions: set<string> := {"-framerate", "-loglevel", "-i", "-threads", "-r", "-b", "-vcodec", "-vf"}

  /** A word list read as ffmpeg's options: options with their values in
      order, value-less switches, and the remaining words as output files.
      It reads the words the command string is joined from, before the join
      and before `sarge` splits the string again. */
  datatype Reading = Reading(options: seq<(string, string)>, switches: seq<string>, outputs: seq<string>)

  function ReadArguments(args: seq<string>): Reading
    decreases |args|
  {
    if args == [] then Reading([], [], [])
    else if args[0] in ValueOptions && |args| >= 2 then
      var rest := ReadArguments(args[2..]);
      rest.(options := [(args[0], args[1])] + rest.options)
    else if args[0] == "-y" then
      var rest := ReadArguments(args[1..]);
      rest.(switches := [args[0]] + rest.switches)
    else
      var rest := ReadArguments(args[1..]);
      rest.(outputs := [args[0]] + rest.outputs)
  }

  lemma OverwriteIsASwitch()
    ensures "-y" !in ValueOptions
  {
  }

  lemma QuotedIsAWord(s: string)
    ensures Quoted(s) !in ValueOptions && Quoted(s) != "-y"
  {
    assert Quoted(s)[0] == '"';
    assert "-y"[0] == '-';
    forall o | o in ValueOptions
      ensures o[0] == '-'
    {
    }
  }

  /** Reading the words after the program back recovers every setting
      under its own option, in order, the overwrite switch, and the output
      file as the only output, whatever the values' text. This is about the
      words the command string is joined from; a value holding a space or a
      quote may split differently once the string is parsed again. */
  lemma EncoderArgumentsReadBack(
    ffmpeg: string, fps: real, inputPattern: string, outputFile: string, filter: string,
    threads: int, bitrate: string, outputFormat: string,
    floatText: real -> string, shellQuote: string -> string)
    ensures ReadArguments(EncoderArguments(ffmpeg, fps, inputPattern, outputFile, filter, threads,
                                           bitrate, outputFormat, floatText, shellQuote)[1..])
      == Reading(
           [("-framerate", floatText(fps)), ("-loglevel", "error"), ("-i", Quoted(inputPattern)),
            ("-threads", IntToString(threads)), ("-r", floatText(fps)), ("-b", bitrate),
            ("-vcodec", Formats.VideoCodecOf(outputFormat)), ("-vf", shellQuote(filter))],
           ["-y"], [Quoted(outputFile)])
  {
    var a := EncoderArguments(ffmpeg, fps, inputPattern, outputFile, filter, threads, bitrate,
                              outputFormat, floatText, shellQuote);
    QuotedIsAWord(outputFile);
    OverwriteIsASwitch();
    assert a[18..] == [Quoted(outputFile)] && a[18..][1..] == [];
    assert a[16..][2..] == a[18..];
    assert a[14..][2..] == a[16..];
    assert a[12..][2..] == a[14..];
    assert a[11..][1..] == a[12..];
    assert a[9..][2..] == a[11..];
    assert a[7..][2..] == a[9..];
    assert a[5..][2..] == a[7..];
    assert a[3..][2..] == a[5..];
    assert a[1..][2..] == a[3..];
    var r18 := ReadArguments(a[18..]);
    assert r18 == Reading([], [], [a[18]]) by {
      assert ReadArguments(a[18..][1..]) == Reading([], [], []);
    }
    var r16 := ReadArguments(a[16..]);
    assert r16 == Reading([(a[16], a[17])], [], [a[18]]);
    var r14 := ReadArguments(a[14..]);
    assert r14 == Reading([(a[14], a[15])] + r16.options, [], [a[18]]);
    var r12 := ReadArguments(a[12..]);
    assert r12 == Reading([(a[12], a[13])] + r14.options, [], [a[18]]);
    var r11 := ReadArguments(a[11..]);
    assert r11 == Reading(r12.options, ["-y"], [a[18]]);
    var r9 := ReadArguments(a[9..]);
    assert r9 == Reading([(a[9], a[10])] + r11.options, ["-y"], [a[18]]);
    var r7 := ReadArguments(a[7..]);
    assert r7 == Reading([(a[7], a[8])] + r9.options, ["-y"], [a[18]]);
    var r5 := ReadArguments(a[5..]);
    assert r5 == Reading([(a[5], a[6])] + r7.options, ["-y"], [a[18]]);
    var r3 := ReadArguments(a[3..]);
    assert r3 == Reading([(a[3], a[4])] + r5.options, ["-y"], [a[18]]);
    var r1 := ReadArguments(a[1..]);
    assert r1 == Reading([(a[1], a[2])] + r3.options, ["-y"], [a[18]]);
  }

  /** The constructor's treatment of the encoder path: stripped, and on
      Windows wrapped in double quotes unless it already starts and ends
      with one. */
  function EncoderPath(ffmpegPath: Option<string>, windows: bool): (r: Option<string>)
    ensures r.None? <==> ffmpegPath.None?
    ensures r.Some? && !windows ==> r.value == Strip(ffmpegPath.value)
    ensures r.Some? && windows ==> StartsWith(r.value, "\"") && EndsWith(r.value, "\"")
    ensures ffmpegPath.Some? && windows ==>
      var p := Strip(ffmpegPath.value);
      r == (if StartsWith(p, "\"") && EndsWith(p, "\"") then Some(p) else Some(Quoted(p)))
  {
    match ffmpegPath
    case None => None
    case Some(p) =>
      var stripped := Strip(p);
      if windows && !(StartsWith(stripped, "\"") && EndsWith(stripped, "\"")) then Some(Quoted(stripped))
      else Some(stripped)
  }

  /** Quoting is applied at most once: a quoted path is left alone. */
  lemma EncoderPathQuotesOnce(p: string)
    ensures EncoderPath(EncoderPath(Some(p), true), true) == EncoderPath(Some(p), true)
  {
    var q := EncoderPath(Some(p), true).value;
    assert q == [] || (!IsSpace(q[0]) && !IsSpace(q[|q| - 1]));
    assert Strip(q) == q;
  }

  /** The Windows watermark path: backslashes become slashes, then each
      colon is escaped with two backslashes. */
  function EscapeWatermark(path: string): string {
    EscapeColons(ReplaceChar(path, '\\', "/"))
  }

  function EscapeColons(s: string): string
    decreases |s|
  {
    if s == [] then []
    else (if s[0] == ':' then "\\\\:" else [s[0]]) + EscapeColons(s[1..])
  }

  /** Reads an escaped path back: `\\:` is a colon again. */
  function Unescape(s: string): string
    decreases |s|
  {
    if s == [] then []
    else if |s| >= 3 && s[..3] == "\\\\:" then ":" + Unescape(s[3..])
    else [s[0]] + Unescape(s[1..])
  }

  lemma {:induction false} UnescapeEscapeColons(s: string)
    requires '\\' !in s
    ensures Unescape(EscapeColons(s)) == s
    decreases |s|
  {
    if s != [] {
      assert '\\' !in s[1..];
      UnescapeEscapeColons(s[1..]);
      var rest := EscapeColons(s[1..]);
      if s[0] == ':' {
        assert EscapeColons(s) == "\\\\:" + rest;
        assert (("\\\\:" + rest)[..3]) == "\\\\:";
        assert ("\\\\:" + rest)[3..] == rest;
      } else {
        assert EscapeColons(s) == [s[0]] + rest;
        assert ([s[0]] + rest)[1..] == rest;
      }
    }
  }

  /** The escaping loses nothing beyond the separator normalisation: reading
      it back gives the path with backslashes replaced by slashes. */
  lemma WatermarkEscapeRoundTrip(path: string)
    ensures Unescape(EscapeWatermark(path)) == ReplaceChar(path, '\\', "/")
  {
    UnescapeEscapeColons(ReplaceChar(path, '\\', "/"));
  }
}
