/**
 * The line-framed reader of streamed answers (`StreamProcessor` in
 * src/utils/stream.ts) and the chunk router built on it
 * (`processStreamResponse`).
 *
 * The network side is an input: the decoded text of each read, or a read
 * that fails, together with the read during which `abort()` is called.
 * `JSON.parse` is the parameter `parse` (`None` when it throws).
 */
module Stream {
  import opened Wrappers
  import opened Strings
  import opened Json
  import opened Lists

  /** What one `reader.read()` yields: decoded text, or a rejection. */
  datatype Read = Data(text: string) | Fail

  /** How a run ends: `onDone`, `onError`, neither (aborted), or the call
      itself throws because the response has no body. */
  datatype Ending = Finished | Failed | Silent | Rejected

  /** The `onChunk` calls of a run, in order, and how it ended. */
  datatype Outcome = Outcome(chunks: seq<Json>, ending: Ending)

  const Newline: char := '\n'
  const DataPrefix: string := "data: "
  const DoneMarker: string := "[DONE]"

  /** `{ type: 'done' }` */
  const DoneChunk: Json := Obj(map["type" := Str("done")])

  /** `{ type: 'text', content: s }` */
  function TextChunk(s: string): Json {
    Obj(map["type" := Str("text"), "content" := Str(s)])
  }

  /** The `onChunk` that `processStreamResponse` passes reads `chunk.type`
      first, which throws for a `null` chunk. */
  predicate RouterThrows(chunk: Json) {
    chunk == Null
  }

  /** `try { onChunk(JSON.parse(s)) } catch { onChunk(text chunk of s) }`:
      the parsed value, followed by the text chunk when `onChunk` throws on
      it; the text chunk alone when `JSON.parse` throws. */
  function ParseOrText(s: string, parse: string -> Option<Json>): (r: seq<Json>)
    ensures 1 <= |r| <= 2
    ensures parse(s).None? ==> r == [TextChunk(s)]
    ensures parse(s).Some? ==> r[0] == parse(s).value
    ensures |r| == 2 <==> parse(s).Some? && RouterThrows(parse(s).value)
    ensures |r| == 2 ==> r[1] == TextChunk(s)
  {
    match parse(s)
    case Some(v) => if RouterThrows(v) then [v, TextChunk(s)] else [v]
    case None => [TextChunk(s)]
  }

  /** The chunks one complete line produces. */
  function ClassifyLine(line: string, parse: string -> Option<Json>): (r: seq<Json>)
    ensures |r| <= 2
    ensures r == [] <==> IsBlank(line)
  {
    TrimEmptyIffBlank(line);
    var t := Trim(line);
    if t == [] then []
    else if StartsWith(t, DataPrefix) then
      var payload := t[|DataPrefix|..];
      if payload == DoneMarker then [DoneChunk] else ParseOrText(payload, parse)
    else ParseOrText(t, parse)
  }

  /** The residual buffer at the end of input: parsed whole (the `data: `
      prefix is not stripped), or a text chunk of the untrimmed buffer; a
      blank buffer produces nothing. */
  function Flush(buffer: string, parse: string -> Option<Json>): (r: seq<Json>)
    ensures r == [] <==> IsBlank(buffer)
    ensures r != [] ==> r == ParseOrText(buffer, parse)
  {
    TrimEmptyIffBlank(buffer);
    if Trim(buffer) != [] then ParseOrText(buffer, parse) else []
  }

  /** What the reader does with a complete line and with the residual at
      the end. The framing below is stated for any such pair; `Handling`
      is the pair `processStream` uses. */
  datatype Handlers = Handlers(line: string -> seq<Json>, residual: string -> seq<Json>)

  function Handling(parse: string -> Option<Json>): Handlers {
    Handlers(l => ClassifyLine(l, parse), b => Flush(b, parse))
  }

  /** The chunks of a text delivered in one piece and then ended: every
      complete line, then the residual after the last newline. */
  function Framed(text: string, h: Handlers): seq<Json> {
    var parts := Split(text, Newline);
    FlatMap(AllButLast(parts), h.line) + h.residual(Last(parts))
  }

  /** Where the loop has got to: the chunks emitted so far and the text
      held back after the last newline. */
  datatype Progress = Progress(chunks: seq<Json>, buffer: string)

  /** `buffer += chunk; lines = buffer.split('\n'); buffer = lines.pop()`,
      then one round of the line loop. */
  function Feed(p: Progress, text: string, h: Handlers): Progress {
    var parts := Split(p.buffer + text, Newline);
    Progress(p.chunks + FlatMap(AllButLast(parts), h.line), Last(parts))
  }

  function TextOf(r: Read): string {
    if r.Data? then r.text else []
  }

  /** The progress after the first `i` reads. */
  function Consume(input: seq<Read>, i: nat, h: Handlers): Progress
    requires i <= |input|
  {
    if i == 0 then Progress([], []) else Feed(Consume(input, i - 1, h), TextOf(input[i - 1]), h)
  }

  /** The read at which the loop leaves: the first one that fails or during
      which `abort()` is called, or the end of the input. */
  function StopFrom(input: seq<Read>, abortAt: Option<nat>, i: nat): (k: nat)
    requires i <= |input|
    decreases |input| - i
    ensures i <= k <= |input|
    ensures k == |input| || abortAt == Some(k) || input[k].Fail?
    ensures forall j :: i <= j < k ==> input[j].Data? && abortAt != Some(j)
  {
    if i == |input| || abortAt == Some(i) || input[i].Fail? then i else StopFrom(input, abortAt, i + 1)
  }

  function Stop(input: seq<Read>, abortAt: Option<nat>): (k: nat)
    ensures k <= |input|
  {
    StopFrom(input, abortAt, 0)
  }

  /** `abort()` takes effect: it is called during a read the loop reaches. */
  predicate Aborts(input: seq<Read>, abortAt: Option<nat>) {
    abortAt == Some(Stop(input, abortAt))
  }

  /** A whole run of `processStream` on a response that has a body.
      `abort()` called while read `abortAt` is pending sets the flag before
      that read settles: a rejection is then swallowed, and data ends the
      loop, after which the buffer is still flushed but `onDone` is skipped.
      A failed read skips the flush. */
  function Run(input: seq<Read>, abortAt: Option<nat>, h: Handlers): Outcome {
    var k := Stop(input, abortAt);
    var p := Consume(input, k, h);
    var aborted := Aborts(input, abortAt);
    if k < |input| && input[k].Fail? then Outcome(p.chunks, if aborted then Silent else Failed)
    else Outcome(p.chunks + h.residual(p.buffer), if aborted then Silent else Finished)
  }

  /** The text of the successful reads, concatenated. */
  function Received(input: seq<Read>): string {
    if input == [] then [] else Received(input[..|input| - 1]) + TextOf(input[|input| - 1])
  }

  /** The `for (const line of lines)` loop: the chunks of each complete line, in order. */
  method EmitLines(lines: seq<string>, parse: string -> Option<Json>) returns (out: seq<Json>)
    ensures out == FlatMap(lines, Handling(parse).line)
  {
    out := [];
    var j := 0;
    while j < |lines|
      invariant j <= |lines|
      invariant out == FlatMap(lines[..j], Handling(parse).line)
    {
      FlatMapSnoc(lines, j, Handling(parse).line);
      out := out + ClassifyLine(lines[j], parse);
      j := j + 1;
    }
    assert lines[..j] == lines;
  }

  class StreamProcessor {
    /** `reader !== null` */
    var hasReader: bool
    var aborted: bool

    constructor ()
      ensures !hasReader && !aborted
    {
      hasReader := false;
      aborted := false;
    }

    /** `abort()`: raises the flag and reports whether `reader.cancel()` was called. */
    method Abort() returns (cancelled: bool)
      modifies this
      ensures aborted && hasReader == old(hasReader)
      ensures cancelled == hasReader
    {
      aborted := true;
      cancelled := hasReader;
    }

    /** `cleanup()`: reports whether a reader was released, and drops it. */
    method Cleanup() returns (released: bool)
      modifies this
      ensures !hasReader && aborted == old(aborted)
      ensures released == old(hasReader)
    {
      released := hasReader;
      hasReader := false;
    }

    /** `processStream`: the `onChunk` calls and the final callback. */
    method ProcessStream(hasBody: bool, input: seq<Read>, abortAt: Option<nat>,
                         parse: string -> Option<Json>) returns (o: Outcome)
      modifies this
      ensures !hasBody ==> o == Outcome([], Rejected) && hasReader == old(hasReader) && aborted == old(aborted)
      ensures hasBody ==> o == Run(input, abortAt, Handling(parse))
      ensures hasBody ==> !hasReader && aborted == Aborts(input, abortAt)
    {
      if !hasBody {
        return Outcome([], Rejected);
      }
      hasReader := true;
      aborted := false;
      var buffer: string := [];
      var chunks: seq<Json> := [];
      var i := 0;
      while i < |input| && abortAt != Some(i) && input[i].Data?
        invariant i <= |input| && hasReader && !aborted
        invariant Progress(chunks, buffer) == Consume(input, i, Handling(parse))
        invariant Stop(input, abortAt) == StopFrom(input, abortAt, i)
        decreases |input| - i
      {
        var lines := Split(buffer + input[i].text, Newline);
        var out := EmitLines(AllButLast(lines), parse);
        chunks := chunks + out;
        buffer := Last(lines);
        i := i + 1;
      }
      ghost var h := Handling(parse);
      RunAtStop(input, abortAt, h, i, Progress(chunks, buffer));
      assert h.residual(buffer) == Flush(buffer, parse);
      if abortAt == Some(i) {
        var _ := Abort();
      }
      if i < |input| && input[i].Fail? {
        o := Outcome(chunks, if aborted then Silent else Failed);
      } else {
        o := Outcome(chunks + Flush(buffer, parse), if aborted then Silent else Finished);
      }
      var _ := Cleanup();
    }
  }

  /** `Run` at the read where the loop stops, from the progress made so far. */
  lemma RunAtStop(input: seq<Read>, abortAt: Option<nat>, h: Handlers, k: nat, p: Progress)
    requires k == Stop(input, abortAt) && p == Consume(input, k, h)
    ensures Aborts(input, abortAt) == (abortAt == Some(k))
    ensures Run(input, abortAt, h)
      == if k < |input| && input[k].Fail? then Outcome(p.chunks, if abortAt == Some(k) then Silent else Failed)
         else Outcome(p.chunks + h.residual(p.buffer), if abortAt == Some(k) then Silent else Finished)
  {
  }

  /** Feeding `t` after `r`: the complete lines of `r + t` are those of `r`
      followed by those that `t` completes, whatever `f` makes of a line. */
  lemma FeedSplit(r: string, t: string, f: string -> seq<Json>)
    ensures var parts := Split(r, Newline);
      var next := Split(Last(parts) + t, Newline);
      FlatMap(AllButLast(Split(r + t, Newline)), f) == FlatMap(AllButLast(parts), f) + FlatMap(AllButLast(next), f)
      && Last(Split(r + t, Newline)) == Last(next)
  {
    var parts := Split(r, Newline);
    SplitAppend(r, t, Newline);
    var next := Split(Last(parts) + t, Newline);
    var whole := AllButLast(parts) + next;
    assert AllButLast(whole) == AllButLast(parts) + AllButLast(next);
    assert Last(whole) == Last(next);
    FlatMapAppend(AllButLast(parts), AllButLast(next), f);
  }

  /** After any number of reads, the chunks emitted are those of the complete
      lines of everything received, and the buffer is the text after the
      last newline: where the reads split the text makes no difference. */
  lemma {:induction false} ConsumeFramed(input: seq<Read>, i: nat, h: Handlers)
    requires i <= |input|
    ensures var parts := Split(Received(input[..i]), Newline);
      Consume(input, i, h) == Progress(FlatMap(AllButLast(parts), h.line), Last(parts))
  {
    if i == 0 {
      assert input[..0] == [];
    } else {
      ConsumeFramed(input, i - 1, h);
      var r, t := Received(input[..i - 1]), TextOf(input[i - 1]);
      assert input[..i][..i - 1] == input[..i - 1];
      assert Received(input[..i]) == r + t;
      FeedSplit(r, t, h.line);
    }
  }

  /** A run in which no read fails emits the chunks of the text received
      before it stopped, as if that text had come in one piece, residual
      included; it ends in `onDone` unless `abort()` took effect. */
  lemma RunFramed(input: seq<Read>, abortAt: Option<nat>, h: Handlers)
    requires forall j :: 0 <= j < |input| ==> input[j].Data?
    ensures Run(input, abortAt, h)
         == Outcome(Framed(Received(input[..Stop(input, abortAt)]), h),
                    if Aborts(input, abortAt) then Silent else Finished)
  {
    ConsumeFramed(input, Stop(input, abortAt), h);
  }

  /** Two deliveries of the same text, however it was cut into reads, give
      the same `onChunk` calls and the same ending. */
  lemma ReadBoundariesIrrelevant(a: seq<Read>, b: seq<Read>, h: Handlers)
    requires forall j :: 0 <= j < |a| ==> a[j].Data?
    requires forall j :: 0 <= j < |b| ==> b[j].Data?
    requires Received(a) == Received(b)
    ensures Run(a, None, h) == Run(b, None, h)
  {
    RunFramed(a, None, h);
    RunFramed(b, None, h);
    assert a[..|a|] == a && b[..|b|] == b;
  }

  /** A failed read ends the run with the chunks of the complete lines
      received so far: the held-back text is dropped, and `onError` is
      called unless `abort()` took effect. */
  lemma RunFailed(input: seq<Read>, abortAt: Option<nat>, h: Handlers)
    requires Stop(input, abortAt) < |input| && input[Stop(input, abortAt)].Fail?
    ensures var parts := Split(Received(input[..Stop(input, abortAt)]), Newline);
      Run(input, abortAt, h)
      == Outcome(FlatMap(AllButLast(parts), h.line), if Aborts(input, abortAt) then Silent else Failed)
  {
    ConsumeFramed(input, Stop(input, abortAt), h);
  }

  /** `abort()` takes effect exactly when it is called during a read that the
      loop reaches, that is, when no earlier read failed. */
  lemma AbortsIff(input: seq<Read>, abortAt: Option<nat>)
    ensures Aborts(input, abortAt) <==>
      abortAt.Some? && abortAt.value <= |input| && forall j :: 0 <= j < abortAt.value ==> input[j].Data?
  {
    if abortAt.Some? && abortAt.value <= |input| && (forall j :: 0 <= j < abortAt.value ==> input[j].Data?) {
      StopAtAbort(input, abortAt.value, 0);
    }
  }

  /** With every read before `at` successful, the loop gets to `at`. */
  lemma {:induction false} StopAtAbort(input: seq<Read>, at: nat, i: nat)
    requires i <= at <= |input|
    requires forall j :: i <= j < at ==> input[j].Data?
    ensures StopFrom(input, Some(at), i) == at
    decreases at - i
  {
    if i < at {
      StopAtAbort(input, at, i + 1);
    }
  }

  /** A complete line is handled on its own, and the text after it is
      framed as if it had come alone. */
  lemma FramedLine(l: string, t: string, h: Handlers)
    requires Newline !in l
    ensures Framed(l + [Newline] + t, h) == h.line(l) + Framed(t, h)
  {
    SplitLine(l, Newline);
    SplitAppend(l + [Newline], t, Newline);
    assert [] + t == t;
    var parts := Split(t, Newline);
    assert Split(l + [Newline] + t, Newline) == [l] + parts;
    assert AllButLast([l] + parts) == [l] + AllButLast(parts);
    assert Last([l] + parts) == Last(parts);
    FlatMapAppend([l], AllButLast(parts), h.line);
    assert FlatMap([l], h.line) == h.line(l) + FlatMap([], h.line);
  }

  /** The line `data: [DONE]` gives exactly the done chunk. */
  lemma DoneLine(parse: string -> Option<Json>)
    ensures ClassifyLine(DataPrefix + DoneMarker, parse) == [DoneChunk]
  {
    var l := DataPrefix + DoneMarker;
    assert |l| == 12 && l[0] == 'd' && l[11] == ']';
    TrimUnchanged(l);
    assert l[..|DataPrefix|] == DataPrefix;
    assert l[|DataPrefix|..] == DoneMarker;
  }

  /** `data: [DONE]` emits exactly the done chunk, and reading goes on with
      the lines after it. */
  lemma DoneLineContinues(t: string, parse: string -> Option<Json>)
    ensures Framed(DataPrefix + DoneMarker + [Newline] + t, Handling(parse))
         == [DoneChunk] + Framed(t, Handling(parse))
  {
    var l, h := DataPrefix + DoneMarker, Handling(parse);
    DoneLine(parse);
    assert h.line(l) == ClassifyLine(l, parse) == [DoneChunk];
    assert Newline !in l;
    FramedLine(l, t, h);
  }

  /** The callbacks `processStreamResponse` passes on. */
  datatype Callback = OnText(content: Json) | OnDone | OnError(message: Option<Json>)

  /** The `onChunk` router of `processStreamResponse`. For a `null` chunk
      reading `chunk.type` throws before any callback, so it routes to
      nothing; `ParseOrText` accounts for what the processor does next. */
  function Route(chunk: Json): (r: seq<Callback>)
    ensures |r| <= 1
    ensures r != [] ==> Get(chunk, "type").Some? && Get(chunk, "type").value.Str?
  {
    var kind := Get(chunk, "type");
    if kind == Some(Str("text")) && TruthyOpt(Get(chunk, "content")) then [OnText(Get(chunk, "content").value)]
    else if kind == Some(Str("done")) then [OnDone]
    else if kind == Some(Str("error")) && TruthyOpt(Get(chunk, "error")) then [OnError(Get(chunk, "error"))]
    else []
  }

  /** Every callback of a run of `processStreamResponse`: the routed chunks,
      then `onDone` or `onError` again as the end handlers. */
  function Callbacks(o: Outcome): seq<Callback> {
    FlatMap(o.chunks, Route)
      + match o.ending
        case Finished => [OnDone]
        case Failed => [OnError(None)]
        case Silent => []
        case Rejected => []
  }

  /** A payload that parses to `null` makes the router throw; the processor
      catches that and sends the payload as text, which reaches `onText`. */
  lemma NullFallsBackToText(s: string, parse: string -> Option<Json>)
    requires parse(s) == Some(Null)
    ensures ParseOrText(s, parse) == [Null, TextChunk(s)]
    ensures FlatMap(ParseOrText(s, parse), Route) == (if s == [] then [] else [OnText(Str(s))])
  {
    RouteText(s);
    assert Route(Null) == [];
    assert FlatMap([TextChunk(s)], Route) == Route(TextChunk(s)) + FlatMap([], Route);
  }

  /** A text chunk reaches `onText` exactly when its content is non-empty. */
  lemma RouteText(s: string)
    ensures Route(TextChunk(s)) == if s == [] then [] else [OnText(Str(s))]
  {
    assert Get(TextChunk(s), "type") == Some(Str("text"));
  }

  /** A stream that carries `data: [DONE]` and then ends normally calls
      `onDone` at least twice: once routed, once as the end handler. */
  lemma DoneCalledTwice(input: seq<Read>, h: Handlers, i: nat)
    requires forall j :: 0 <= j < |input| ==> input[j].Data?
    requires i < |Framed(Received(input), h)| && Framed(Received(input), h)[i] == DoneChunk
    ensures multiset(Callbacks(Run(input, None, h)))[OnDone] >= 2
  {
    RunFramed(input, None, h);
    var k := Stop(input, None);
    assert k == |input| && input[..k] == input;
    var o := Run(input, None, h);
    assert o.ending == Finished;
    assert Get(DoneChunk, "type") == Some(Str("done"));
    assert Route(DoneChunk) == [OnDone];
    FlatMapContains(o.chunks, Route, i);
  }
}
