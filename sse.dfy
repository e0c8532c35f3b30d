/**
 * The relay's SSE framer: the upstream response text arrives in chunks, is split into
 * events at blank lines and into lines, and every `data: ` payload that parses is yielded.
 */
module Sse {
  import opened Wire

  // ---------------------------------------------------------------- SSE framing

  /** `s.split(sep)` for a non-empty separator. */
  function Split(s: string, sep: string): (r: seq<string>)
    requires sep != ""
    ensures |r| >= 1
    decreases |s|
  {
    match FindFrom(s, sep, 0)
    case None => [s]
    case Some(i) => [s[..i]] + Split(s[i + |sep|..], sep)
  }

  /** `ps.join(sep)`. */
  function Join(ps: seq<string>, sep: string): string
    requires |ps| >= 1
  {
    if |ps| == 1 then ps[0] else ps[0] + sep + Join(ps[1..], sep)
  }

  /** Splitting loses nothing: joining the pieces gives the text back. */
  lemma {:induction false} SplitJoin(s: string, sep: string)
    requires sep != ""
    ensures Join(Split(s, sep), sep) == s
    decreases |s|
  {
    match FindFrom(s, sep, 0)
    case None =>
    case Some(i) =>
      SplitJoin(s[i + |sep|..], sep);
      assert Split(s, sep)[1..] == Split(s[i + |sep|..], sep);
      assert s[i..i + |sep|] == sep;
      assert s == s[..i] + s[i..i + |sep|] + s[i + |sep|..];
  }

  /** No piece contains the separator. */
  lemma {:induction false} SplitPieces(s: string, sep: string)
    requires sep != ""
    ensures forall k :: 0 <= k < |Split(s, sep)| ==> FindFrom(Split(s, sep)[k], sep, 0).None?
    decreases |s|
  {
    match FindFrom(s, sep, 0)
    case None =>
    case Some(i) =>
      SplitPieces(s[i + |sep|..], sep);
      assert Split(s, sep)[1..] == Split(s[i + |sep|..], sep);
      NoMatchBefore(s, sep, 0, i);
  }

  /** The text before the first match holds no match. */
  lemma {:induction false} NoMatchBefore(s: string, sep: string, from: nat, i: nat)
    requires sep != "" && from <= i <= |s| && FindFrom(s, sep, from) == Some(i)
    ensures FindFrom(s[..i], sep, from).None?
    decreases i - from
  {
    if from < i {
      assert !ContainsAt(s[..i], sep, from) by {
        if from + |sep| <= i {
          assert s[..i][from..from + |sep|] == s[from..from + |sep|];
        }
      }
      NoMatchBefore(s, sep, from + 1, i);
    }
  }

  /** A match that ends inside `s` is still the first match after more text arrives. */
  lemma {:induction false} FindExtends(s: string, x: string, pat: string, from: nat, i: nat)
    requires from <= |s| && FindFrom(s, pat, from) == Some(i)
    ensures FindFrom(s + x, pat, from) == Some(i)
    decreases |s| - from
  {
    if from + |pat| <= |s| {
      assert (s + x)[from..from + |pat|] == s[from..from + |pat|];
    }
    if from < i {
      assert i + |pat| <= |s|;
      FindExtends(s, x, pat, from + 1, i);
    } else {
      assert (s + x)[i..i + |pat|] == s[i..i + |pat|];
    }
  }

  function Init(ps: seq<string>): seq<string>
    requires |ps| >= 1
  {
    ps[..|ps| - 1]
  }

  function Last(ps: seq<string>): string
    requires |ps| >= 1
  {
    ps[|ps| - 1]
  }

  lemma {:induction false} SplitUnfold(t: string, sep: string, i: nat)
    requires sep != "" && FindFrom(t, sep, 0) == Some(i)
    ensures i + |sep| <= |t| && Split(t, sep) == [t[..i]] + Split(t[i + |sep|..], sep)
  {
  }

  lemma {:induction false} Regroup(a: string, r: seq<string>, rx: seq<string>, t: seq<string>)
    requires |r| >= 1 && rx == Init(r) + t
    ensures [a] + rx == Init([a] + r) + t && Last([a] + r) == Last(r)
  {
    assert Init([a] + r) == [a] + Init(r);
  }

  /** Splitting `s + x` when `s` already holds the first separator, at `i`. */
  lemma {:induction false} SplitUnfoldAppend(s: string, x: string, sep: string, i: nat)
    requires sep != "" && FindFrom(s, sep, 0) == Some(i)
    ensures i + |sep| <= |s| && Split(s + x, sep) == [s[..i]] + Split(s[i + |sep|..] + x, sep)
  {
    FindExtends(s, x, sep, 0, i);
    SplitUnfold(s + x, sep, i);
    assert (s + x)[..i] == s[..i];
    assert (s + x)[i + |sep|..] == s[i + |sep|..] + x;
  }

  /** The inductive step of `SplitAppend`: past the first separator, the rest behaves as claimed. */
  lemma {:induction false} SplitAppendStep(s: string, x: string, sep: string, i: nat)
    requires sep != "" && FindFrom(s, sep, 0) == Some(i) && i + |sep| <= |s|
    requires var rest := s[i + |sep|..];
      Split(rest + x, sep) == Init(Split(rest, sep)) + Split(Last(Split(rest, sep)) + x, sep)
    ensures Split(s + x, sep) == Init(Split(s, sep)) + Split(Last(Split(s, sep)) + x, sep)
  {
    var rest := s[i + |sep|..];
    SplitUnfoldAppend(s, x, sep, i);
    SplitUnfold(s, sep, i);
    var r := Split(rest, sep);
    Regroup(s[..i], r, Split(rest + x, sep), Split(Last(r) + x, sep));
  }

  /** Appending text only re-splits the last piece. */
  lemma {:induction false} SplitAppend(s: string, x: string, sep: string)
    requires sep != ""
    ensures Split(s + x, sep) == Init(Split(s, sep)) + Split(Last(Split(s, sep)) + x, sep)
    decreases |s|
  {
    match FindFrom(s, sep, 0)
    case None =>
    case Some(i) =>
      SplitAppend(s[i + |sep|..], x, sep);
      SplitAppendStep(s, x, sep, i);
  }

  /** One more chunk: the pieces completed so far stay, and the old buffer plus the chunk is re-split. */
  lemma {:induction false} FrameStep(prefix: string, chunk: string, parse: string -> Option<Json>)
    ensures var parts := Split(Last(Split(prefix, "\n\n")) + chunk, "\n\n");
      Last(Split(prefix + chunk, "\n\n")) == Last(parts) &&
      PartsValues(Init(Split(prefix + chunk, "\n\n")), parse) ==
        PartsValues(Init(Split(prefix, "\n\n")), parse) + PartsValues(Init(parts), parse)
  {
    var ps := Split(prefix, "\n\n");
    var parts := Split(Last(ps) + chunk, "\n\n");
    SplitAppend(prefix, chunk, "\n\n");
    var after := Init(ps) + parts;
    assert Init(after) == Init(ps) + Init(parts);
    assert Last(after) == Last(parts);
    PartsValuesAppend(Init(ps), Init(parts), parse);
  }

  /** The payload of one SSE line: a `data: ` line whose trimmed rest is neither empty nor `[DONE]` and parses. */
  function LineValue(line: string, parse: string -> Option<Json>): (r: Option<Json>)
    ensures r.Some? ==> StartsWith(line, "data: ") && Trim(line[6..]) != "" && Trim(line[6..]) != "[DONE]" &&
                        parse(Trim(line[6..])) == r
    ensures StartsWith(line, "data: ") && Trim(line[6..]) != "" && Trim(line[6..]) != "[DONE]" ==> r == parse(Trim(line[6..]))
  {
    if StartsWith(line, "data: ") then
      var data := Trim(line[6..]);
      if data != "" && data != "[DONE]" then parse(data) else None
    else None
  }

  function LinesValues(lines: seq<string>, parse: string -> Option<Json>): seq<Json> {
    if lines == [] then []
    else
      var v := LineValue(lines[|lines| - 1], parse);
      LinesValues(lines[..|lines| - 1], parse) + (if v.Some? then [v.value] else [])
  }

  /** The values of one complete event. */
  function PartValues(part: string, parse: string -> Option<Json>): seq<Json> {
    LinesValues(Split(part, "\n"), parse)
  }

  function PartsValues(parts: seq<string>, parse: string -> Option<Json>): seq<Json> {
    if parts == [] then []
    else PartsValues(parts[..|parts| - 1], parse) + PartValues(parts[|parts| - 1], parse)
  }

  /** The text left in the buffer at the end is processed when it is not blank. */
  function Leftover(buffer: string, parse: string -> Option<Json>): seq<Json> {
    if Trim(buffer) != "" then PartValues(buffer, parse) else []
  }

  /** The values yielded for the whole upstream text. */
  function FrameText(text: string, parse: string -> Option<Json>): seq<Json> {
    var ps := Split(text, "\n\n");
    PartsValues(Init(ps), parse) + Leftover(Last(ps), parse)
  }

  function Concat(chunks: seq<string>): string {
    if chunks == [] then "" else Concat(chunks[..|chunks| - 1]) + chunks[|chunks| - 1]
  }

  lemma {:induction false} PartsValuesAppend(a: seq<string>, b: seq<string>, parse: string -> Option<Json>)
    ensures PartsValues(a + b, parse) == PartsValues(a, parse) + PartsValues(b, parse)
    decreases |b|
  {
    if b != [] {
      assert (a + b)[..|a + b| - 1] == a + b[..|b| - 1];
      PartsValuesAppend(a, b[..|b| - 1], parse);
    } else {
      assert a + b == a;
    }
  }

  /** Every yielded value is the parse of a non-empty, non-`[DONE]` payload. */
  lemma {:induction false} LinesValuesParsed(lines: seq<string>, parse: string -> Option<Json>)
    ensures forall v :: v in LinesValues(lines, parse) ==>
      exists d :: d != "" && d != "[DONE]" && parse(d) == Some(v)
    decreases |lines|
  {
    if lines != [] {
      LinesValuesParsed(lines[..|lines| - 1], parse);
      var line := lines[|lines| - 1];
      if LineValue(line, parse).Some? {
        var d := Trim(line[6..]);
        assert parse(d) == LineValue(line, parse);
      }
    }
  }

  /** Emits the values of the given lines of one event. */
  method EmitLines(lines: seq<string>, parse: string -> Option<Json>) returns (values: seq<Json>)
    ensures values == LinesValues(lines, parse)
  {
    values := [];
    var i := 0;
    while i < |lines|
      invariant 0 <= i <= |lines|
      invariant values == LinesValues(lines[..i], parse)
    {
      assert lines[..i + 1][..i] == lines[..i];
      var v := LineValue(lines[i], parse);
      if v.Some? {
        values := values + [v.value];
      }
      i := i + 1;
    }
    assert lines[..|lines|] == lines;
  }

  /** Emits the values of complete events, in order. */
  method EmitParts(parts: seq<string>, parse: string -> Option<Json>) returns (values: seq<Json>)
    ensures values == PartsValues(parts, parse)
  {
    values := [];
    var j := 0;
    while j < |parts|
      invariant 0 <= j <= |parts|
      invariant values == PartsValues(parts[..j], parse)
    {
      assert parts[..j + 1][..j] == parts[..j];
      var vs := EmitLines(Split(parts[j], "\n"), parse);
      values := values + vs;
      j := j + 1;
    }
    assert parts[..|parts|] == parts;
  }

  /**
   * `_geminiChunkGenerator`: the upstream text arrives in chunks; complete events are
   * parsed as soon as their `\n\n` arrives and the rest waits in the buffer. The values
   * depend only on the concatenated text, never on where the chunks were cut.
   */
  method ChunkGenerator(chunks: seq<string>, parse: string -> Option<Json>) returns (values: seq<Json>)
    ensures values == FrameText(Concat(chunks), parse)
  {
    var buffer := "";
    values := [];
    var k := 0;
    assert Split("", "\n\n") == [""];
    while k < |chunks|
      invariant 0 <= k <= |chunks|
      invariant buffer == Last(Split(Concat(chunks[..k]), "\n\n"))
      invariant values == PartsValues(Init(Split(Concat(chunks[..k]), "\n\n")), parse)
    {
      assert chunks[..k + 1][..k] == chunks[..k];
      FrameStep(Concat(chunks[..k]), chunks[k], parse);
      buffer := buffer + chunks[k];
      var parts := Split(buffer, "\n\n");
      buffer := Last(parts);
      var vs := EmitParts(Init(parts), parse);
      values := values + vs;
      k := k + 1;
    }
    assert chunks[..|chunks|] == chunks;
    if Trim(buffer) != "" {
      var vs := EmitLines(Split(buffer, "\n"), parse);
      values := values + vs;
    }
  }
}
