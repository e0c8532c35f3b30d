/**
 * The relay's stream driver: the chunk converter runs over the parsed upstream chunks, the
 * converter's `message_stop` is held back, and the relay closes the stream with its own
 * `message_delta` and `message_stop`; the usage seen on the chunks is then recorded.
 */
module StreamRelay {
  import opened Wire
  import opened Stream
  import opened Response

  // ---------------------------------------------------------------- stream driver

  /** `finalUsage` of a stream. */
  datatype Totals = Totals(inputTokens: int, outputTokens: int, cacheReadTokens: int)

  /** `x || prev` on a token count. */
  function Or(x: int, prev: int): int {
    if x != 0 then x else prev
  }

  /** A reported `usageMetadata` overrides each count it reports as non-zero. */
  function AddReported(t: Totals, usage: Option<Usage>): (r: Totals)
    ensures usage.None? ==> r == t
    ensures usage.Some? ==> var u := usage.value;
      (u.promptTokenCount != 0 ==> r.inputTokens == u.promptTokenCount) &&
      (u.promptTokenCount == 0 ==> r.inputTokens == t.inputTokens) &&
      (u.candidatesTokenCount != 0 ==> r.outputTokens == u.candidatesTokenCount) &&
      (u.candidatesTokenCount == 0 ==> r.outputTokens == t.outputTokens) &&
      (u.cachedContentTokenCount != 0 ==> r.cacheReadTokens == u.cachedContentTokenCount) &&
      (u.cachedContentTokenCount == 0 ==> r.cacheReadTokens == t.cacheReadTokens)
  {
    match usage
    case None => t
    case Some(u) => Totals(Or(u.promptTokenCount, t.inputTokens), Or(u.candidatesTokenCount, t.outputTokens),
                           Or(u.cachedContentTokenCount, t.cacheReadTokens))
  }

  /** A chunk's top-level `usageMetadata` overrides each count it reports as non-zero. */
  function AddUsage(t: Totals, c: Chunk): (r: Totals)
    ensures c.body.usageMetadata.None? ==> r == t
    ensures t.outputTokens != 0 ==> r.outputTokens != 0
    ensures t.inputTokens != 0 ==> r.inputTokens != 0
    ensures c.body.usageMetadata.Some? ==> var u := c.body.usageMetadata.value;
      (u.promptTokenCount != 0 ==> r.inputTokens == u.promptTokenCount) &&
      (u.promptTokenCount == 0 ==> r.inputTokens == t.inputTokens) &&
      (u.candidatesTokenCount != 0 ==> r.outputTokens == u.candidatesTokenCount) &&
      (u.candidatesTokenCount == 0 ==> r.outputTokens == t.outputTokens) &&
      (u.cachedContentTokenCount != 0 ==> r.cacheReadTokens == u.cachedContentTokenCount) &&
      (u.cachedContentTokenCount == 0 ==> r.cacheReadTokens == t.cacheReadTokens)
  {
    AddReported(t, c.body.usageMetadata)
  }

  function UsageOf(inputs: seq<ChunkInput>): Totals {
    if inputs == [] then Totals(0, 0, 0)
    else AddUsage(UsageOf(inputs[..|inputs| - 1]), inputs[|inputs| - 1].chunk)
  }

  /** The converter's events minus its `message_stop`s, which the relay writes itself. */
  function Forwarded(es: seq<Event>): seq<Event> {
    if es == [] then [] else Forwarded(es[..|es| - 1]) + (if es[|es| - 1].MessageStop? then [] else [es[|es| - 1]])
  }

  lemma {:induction false} ForwardedAppend(a: seq<Event>, b: seq<Event>)
    ensures Forwarded(a + b) == Forwarded(a) + Forwarded(b)
    decreases |b|
  {
    if b != [] {
      assert (a + b)[..|a + b| - 1] == a + b[..|b| - 1];
      ForwardedAppend(a, b[..|b| - 1]);
    } else {
      assert a + b == a;
    }
  }

  /** Everything written after `message_start`: the forwarded events, then the relay's own delta and stop. */
  function StreamOutput(inputs: seq<ChunkInput>): seq<Event> {
    Forwarded(Run(Initial, inputs).events) +
    [MessageDelta("end_turn", None, UsageOf(inputs).outputTokens), MessageStop]
  }

  /** One chunk further into the stream. */
  lemma {:induction false} RunNext(inputs: seq<ChunkInput>, i: nat)
    requires i < |inputs|
    ensures var r := Run(Initial, inputs[..i]);
      var c := ChunkStep(r.state, inputs[i].chunk, inputs[i].env);
      Run(Initial, inputs[..i + 1]) == Step(c.state, r.events + c.events)
  {
    assert inputs[..i + 1][..i] == inputs[..i];
  }

  /** Writes every event but `message_stop`. */
  method ForwardEvents(events: seq<Event>) returns (out: seq<Event>)
    ensures out == Forwarded(events)
  {
    out := [];
    var j := 0;
    while j < |events|
      invariant 0 <= j <= |events|
      invariant out == Forwarded(events[..j])
    {
      assert events[..j + 1][..j] == events[..j];
      if !events[j].MessageStop? {
        out := out + [events[j]];
      }
      j := j + 1;
    }
    assert events[..|events|] == events;
  }

  /** `_handleStreamResponse`: drives the converter chunk by chunk and tracks the usage. */
  method HandleStreamResponse(inputs: seq<ChunkInput>) returns (written: seq<Event>, usage: Totals)
    ensures written == StreamOutput(inputs)
    ensures usage == UsageOf(inputs)
  {
    var state := new StreamState();
    usage := Totals(0, 0, 0);
    written := [];
    var i := 0;
    ghost var run := Run(Initial, []);
    while i < |inputs|
      invariant 0 <= i <= |inputs|
      invariant run == Run(Initial, inputs[..i])
      invariant state.Snapshot() == run.state
      invariant written == Forwarded(run.events)
      invariant usage == UsageOf(inputs[..i])
    {
      assert inputs[..i + 1][..i] == inputs[..i];
      var c := inputs[i].chunk;
      if c.body.usageMetadata.Some? {
        var u := c.body.usageMetadata.value;
        usage := Totals(Or(u.promptTokenCount, usage.inputTokens), Or(u.candidatesTokenCount, usage.outputTokens),
                        Or(u.cachedContentTokenCount, usage.cacheReadTokens));
      }
      var events := state.ConvertStreamChunk(c, inputs[i].env);
      var forwarded := ForwardEvents(events);
      ForwardedAppend(run.events, events);
      RunNext(inputs, i);
      written := written + forwarded;
      run := Step(state.Snapshot(), run.events + events);
      i := i + 1;
    }
    assert inputs[..|inputs|] == inputs;
    written := written + [MessageDelta("end_turn", None, usage.outputTokens), MessageStop];
  }

  predicate IsStop(e: Event) { e.MessageStop? }
  predicate IsDelta(e: Event) { e.MessageDelta? }

  lemma {:induction false} ForwardedCounts(es: seq<Event>)
    ensures CountWhere(Forwarded(es), IsStop) == 0
    ensures CountWhere(Forwarded(es), IsDelta) == CountWhere(es, IsDelta)
    decreases |es|
  {
    if es != [] {
      var init := es[..|es| - 1];
      var last := es[|es| - 1];
      ForwardedCounts(init);
      assert es == init + [last];
      CountAppend(init, [last], IsDelta);
      CountAppend(Forwarded(init), if last.MessageStop? then [] else [last], IsStop);
      CountAppend(Forwarded(init), if last.MessageStop? then [] else [last], IsDelta);
    }
  }

  /**
   * The stream ends with exactly one `message_stop`, as its last event; every
   * `message_delta` of the converter is kept, so a chunk with a finish reason leads to
   * two `message_delta` events in the written stream.
   */
  lemma {:induction false} StreamEndsOnce(inputs: seq<ChunkInput>)
    ensures var out := StreamOutput(inputs);
      CountWhere(out, IsStop) == 1 && out[|out| - 1] == MessageStop &&
      CountWhere(out, IsDelta) == CountWhere(Run(Initial, inputs).events, IsDelta) + 1
  {
    var f := Forwarded(Run(Initial, inputs).events);
    var tail := [MessageDelta("end_turn", None, UsageOf(inputs).outputTokens), MessageStop];
    ForwardedCounts(Run(Initial, inputs).events);
    CountAppend(f, tail, IsStop);
    CountAppend(f, tail, IsDelta);
    assert tail[1..][1..] == [];
    assert CountWhere(tail[1..], IsStop) == 1;
    assert CountWhere(tail[1..], IsDelta) == 0;
  }

  /** Once a non-zero output count is seen, later chunks never reset it. */
  lemma {:induction false} UsageSticks(inputs: seq<ChunkInput>, more: seq<ChunkInput>)
    requires UsageOf(inputs).outputTokens != 0
    ensures UsageOf(inputs + more).outputTokens != 0
    decreases |more|
  {
    if more != [] {
      assert (inputs + more)[..|inputs + more| - 1] == inputs + more[..|more| - 1];
      UsageSticks(inputs, more[..|more| - 1]);
    } else {
      assert inputs + more == inputs;
    }
  }

  /** Chunk `k` reports a non-zero output count. */
  predicate ReportsOutput(inputs: seq<ChunkInput>, k: int)
    requires 0 <= k < |inputs|
  {
    inputs[k].chunk.body.usageMetadata.Some? && inputs[k].chunk.body.usageMetadata.value.candidatesTokenCount != 0
  }

  /** The recorded output count is the one reported by the last chunk that reports a non-zero one. */
  lemma {:induction false} UsageLastReported(inputs: seq<ChunkInput>, k: int)
    requires 0 <= k < |inputs| && ReportsOutput(inputs, k)
    requires forall j :: k < j < |inputs| ==> !ReportsOutput(inputs, j)
    ensures UsageOf(inputs).outputTokens == inputs[k].chunk.body.usageMetadata.value.candidatesTokenCount
    decreases |inputs|
  {
    var n := |inputs| - 1;
    var init := inputs[..n];
    if k < n {
      assert !ReportsOutput(inputs, n);
      forall j | k < j < |init| ensures !ReportsOutput(init, j) {
        assert !ReportsOutput(inputs, j);
      }
      assert ReportsOutput(init, k) by { assert init[k] == inputs[k]; }
      UsageLastReported(init, k);
    }
  }

  /** `_recordUsage`: nothing is recorded when both token counts are zero; cache counts are passed as zero. */
  function RecordedUsage(t: Totals): (r: Option<(int, int)>)
    ensures r.None? <==> t.inputTokens == 0 && t.outputTokens == 0
    ensures r.Some? ==> r.value == (t.inputTokens, t.outputTokens)
  {
    if t.inputTokens == 0 && t.outputTokens == 0 then None else Some((t.inputTokens, t.outputTokens))
  }

  /** A stream whose chunks carry no top-level usage records nothing. */
  lemma {:induction false} NoUsageNoRecord(inputs: seq<ChunkInput>)
    requires forall i :: 0 <= i < |inputs| ==> inputs[i].chunk.body.usageMetadata.None?
    ensures UsageOf(inputs) == Totals(0, 0, 0)
    ensures RecordedUsage(UsageOf(inputs)).None?
    decreases |inputs|
  {
    if inputs != [] {
      NoUsageNoRecord(inputs[..|inputs| - 1]);
    }
  }

  // ---------------------------------------------------------------- usage of wrapped chunks

  /** The usage the chunk converter reads: the wrapped response's `usageMetadata`, else the chunk's own. */
  function ReportedUsage(c: Chunk): (r: Option<Usage>)
    ensures OutputTokens(c) == (if r.Some? then r.value.candidatesTokenCount else 0)
    ensures c.response.None? ==> r == c.body.usageMetadata
  {
    if Actual(c).usageMetadata.Some? then Actual(c).usageMetadata else c.body.usageMetadata
  }

  /** The totals when the driver reads usage the way the chunk converter does. */
  function IntendedUsageOf(inputs: seq<ChunkInput>): Totals {
    if inputs == [] then Totals(0, 0, 0)
    else AddReported(IntendedUsageOf(inputs[..|inputs| - 1]), ReportedUsage(inputs[|inputs| - 1].chunk))
  }

  /** Chunk `k` reports a non-zero output count where the converter looks for it. */
  predicate ReportsIntendedOutput(inputs: seq<ChunkInput>, k: int)
    requires 0 <= k < |inputs|
  {
    ReportedUsage(inputs[k].chunk).Some? && ReportedUsage(inputs[k].chunk).value.candidatesTokenCount != 0
  }

  /**
   * Under the intended reading, a stream in which some chunk reports a non-zero output count,
   * wrapped or not, ends with a non-zero output total and so has its usage recorded.
   */
  lemma {:induction false} IntendedUsageRecorded(inputs: seq<ChunkInput>, k: int)
    requires 0 <= k < |inputs| && ReportsIntendedOutput(inputs, k)
    ensures IntendedUsageOf(inputs).outputTokens != 0
    ensures RecordedUsage(IntendedUsageOf(inputs)).Some?
    decreases |inputs|
  {
    var n := |inputs| - 1;
    var init := inputs[..n];
    if k < n {
      assert ReportsIntendedOutput(init, k) by { assert init[k] == inputs[k]; }
      IntendedUsageRecorded(init, k);
    }
  }

  /**
   * As written, the driver reads only the top-level `usageMetadata`: a Code Assist chunk that
   * carries its usage inside `response` shows the converter a non-zero output count, yet the
   * stream's totals stay zero and nothing is recorded. The intended reading records that usage.
   */
  lemma WrappedUsageDropped(env: Env, u: Usage)
    requires u.candidatesTokenCount != 0
    ensures var inputs := [ChunkInput(Chunk(ChunkBody(None, None), Some(ChunkBody(None, Some(u)))), env)];
      && OutputTokens(inputs[0].chunk) == u.candidatesTokenCount
      && UsageOf(inputs) == Totals(0, 0, 0)
      && RecordedUsage(UsageOf(inputs)).None?
      && RecordedUsage(IntendedUsageOf(inputs)) == Some((Or(u.promptTokenCount, 0), u.candidatesTokenCount))
  {
    var inputs := [ChunkInput(Chunk(ChunkBody(None, None), Some(ChunkBody(None, Some(u)))), env)];
    assert inputs[..0] == [];
  }
}
