/** The server-sent-event parser inside `doStream` (the `start` body of the
    `ReadableStream` it returns): decoded chunks are split into lines, `data: `
    lines are decoded as JSON frames, text increments and the closing `finish`
    are enqueued, and a failed read ends the stream with one `error` event. */
module GigaChatStream {
  import opened Wrappers
  import opened GigaChatFinish

  /** Running token totals. */
  datatype Usage = Usage(promptTokens: nat, completionTokens: nat)

  /** What `JSON.parse` and the property accesses after it see in one payload:
      `Malformed` when `JSON.parse` throws (or gives something with no `choices`),
      otherwise whether `choices[0]` exists, its `delta.content` and the `usage`. */
  datatype Frame = Malformed | Parsed(hasChoice: bool, deltaContent: Option<string>, usage: Option<Usage>)

  /** The stream parts this parser enqueues. */
  datatype StreamEvent =
    | TextDelta(textDelta: string)
    | Finish(finishReason: FinishReason, usage: Usage)
    | ErrorEvent(detail: string)

  /** How the reader stopped after the last chunk it delivered: `done`, or a
      rejected `reader.read()`. */
  datatype StreamEnd = EndOfStream | ReadFailed(detail: string)

  const DataPrefix: string := "data: "
  const DoneSentinel: string := "[DONE]"
  const DoneLine: string := DataPrefix + DoneSentinel

  // ---------------------------------------------------------------------------
  // Line splitting: `chunk.split('\n').filter((line) => line.trim() !== '')`

  /** `s.split('\n')`: the pieces between newlines, never an empty list. */
  function SplitLines(s: string): (r: seq<string>)
    ensures |r| >= 1
    ensures forall k :: 0 <= k < |r| ==> '\n' !in r[k]
    decreases |s|
  {
    if s == [] then [""]
    else
      var rest := SplitLines(s[1..]);
      if s[0] == '\n' then [""] + rest
      else [[s[0]] + rest[0]] + rest[1..]
  }

  /** `lines.join('\n')`, the inverse of SplitLines. */
  function JoinLines(lines: seq<string>): string
    requires |lines| >= 1
  {
    if |lines| == 1 then lines[0] else lines[0] + "\n" + JoinLines(lines[1..])
  }

  /** A character that `String.prototype.trim` removes: the ECMAScript
      WhiteSpace and LineTerminator code points. */
  predicate IsJsWhitespace(c: char)
  {
    var n := c as int;
    n == 0x09 || n == 0x0A || n == 0x0B || n == 0x0C || n == 0x0D || n == 0x20
    || n == 0xA0 || n == 0x1680 || (0x2000 <= n <= 0x200A) || n == 0x2028 || n == 0x2029
    || n == 0x202F || n == 0x205F || n == 0x3000 || n == 0xFEFF
  }

  /** `line.trim() === ''`. */
  predicate IsBlank(line: string)
  {
    forall k :: 0 <= k < |line| ==> IsJsWhitespace(line[k])
  }

  /** The `filter` step: the non-blank lines, in their order. */
  function NonBlank(lines: seq<string>): (r: seq<string>)
    ensures |r| <= |lines|
    ensures forall l :: l in r <==> l in lines && !IsBlank(l)
  {
    if lines == [] then []
    else if IsBlank(lines[0]) then NonBlank(lines[1..])
    else [lines[0]] + NonBlank(lines[1..])
  }

  /** The lines one chunk contributes, by itself: a line cut by a chunk
      boundary stays cut. */
  function ChunkLines(chunk: string): seq<string>
  {
    NonBlank(SplitLines(chunk))
  }

  // ---------------------------------------------------------------------------
  // The parser as a function of the lines and chunks it reads

  /** The per-stream state: what has been enqueued and the running totals. */
  datatype ParserState = ParserState(events: seq<StreamEvent>, usage: Usage)

  const Initial: ParserState := ParserState([], Usage(0, 0))

  /** The state after one line, and whether the per-line loop breaks there. */
  datatype LineOutcome = LineOutcome(state: ParserState, breaks: bool)

  /** The text increment a line other than the sentinel enqueues: the frame's
      `delta.content`, when the frame has a choice and that content is a
      non-empty string; nothing otherwise. */
  function LineDelta(line: string, decode: string -> Frame): seq<StreamEvent>
  {
    if DataPrefix <= line && line != DoneLine then
      var f := decode(line[|DataPrefix|..]);
      if f.Parsed? && f.hasChoice && f.deltaContent.Some? && f.deltaContent.value != "" then
        [TextDelta(f.deltaContent.value)]
      else []
    else []
  }

  /** A `data:` frame other than the sentinel, with a choice and a `usage` object. */
  predicate UpdatesUsage(line: string, decode: string -> Frame)
  {
    DataPrefix <= line && line != DoneLine
    && var f := decode(line[|DataPrefix|..]);
       f.Parsed? && f.hasChoice && f.usage.Some?
  }

  /** The totals after a line other than the sentinel: its frame's usage if it
      carries one, `u` otherwise. */
  function LineUsage(u: Usage, line: string, decode: string -> Frame): Usage
  {
    if UpdatesUsage(line, decode) then decode(line[|DataPrefix|..]).usage.value else u
  }

  /** The body of the per-line `for`. */
  function LineStep(st: ParserState, line: string, decode: string -> Frame): (r: LineOutcome)
    // the loop breaks exactly at the sentinel line, after enqueuing a finish with the current totals
    ensures r.breaks <==> line == DoneLine
    ensures r.breaks ==> r.state == ParserState(st.events + [Finish(Stop, st.usage)], st.usage)
    // any other line enqueues its text increment and takes its usage, if any
    ensures !r.breaks ==> r.state == ParserState(st.events + LineDelta(line, decode), LineUsage(st.usage, line, decode))
  {
    if !(DataPrefix <= line) then LineOutcome(st, false)
    else
      var data := line[|DataPrefix|..];
      assert line == DataPrefix + data;
      if data == DoneSentinel then
        LineOutcome(ParserState(st.events + [Finish(Stop, st.usage)], st.usage), true)
      else
        LineOutcome(ApplyFrame(st, decode(data)), false)
  }

  /** The `try` block on one payload: a malformed frame, or one without
      `choices[0]`, throws before anything happens. */
  function ApplyFrame(st: ParserState, f: Frame): ParserState
  {
    match f
    case Malformed => st
    case Parsed(hasChoice, delta, usage) =>
      if !hasChoice then st
      else
        var events := if delta.Some? && delta.value != "" then st.events + [TextDelta(delta.value)] else st.events;
        ParserState(events, if usage.Some? then usage.value else st.usage)
  }

  /** The per-line `for` over the remaining lines of one chunk. */
  function ProcessLines(st: ParserState, lines: seq<string>, decode: string -> Frame): (r: ParserState)
    ensures st.events <= r.events
    decreases |lines|
  {
    if lines == [] then st
    else
      var step := LineStep(st, lines[0], decode);
      if step.breaks then step.state else ProcessLines(step.state, lines[1..], decode)
  }

  /** Line `j` is not a `data: ` line: the loop goes on with the same state. */
  lemma SkipLine(st: ParserState, lines: seq<string>, j: nat, decode: string -> Frame)
    requires j < |lines| && !(DataPrefix <= lines[j])
    ensures ProcessLines(st, lines[j..], decode) == ProcessLines(st, lines[j + 1..], decode)
  {
    assert lines[j..][0] == lines[j] && lines[j..][1..] == lines[j + 1..];
  }

  /** Line `j` is the sentinel: the loop stops after the finish. */
  lemma SentinelLine(st: ParserState, lines: seq<string>, j: nat, decode: string -> Frame)
    requires j < |lines| && DataPrefix <= lines[j] && lines[j][|DataPrefix|..] == DoneSentinel
    ensures ProcessLines(st, lines[j..], decode) == ParserState(st.events + [Finish(Stop, st.usage)], st.usage)
  {
    assert lines[j] == DataPrefix + lines[j][|DataPrefix|..];
    assert lines[j..][0] == lines[j];
  }

  /** Line `j` is any other `data: ` line: its frame is applied and the loop goes on. */
  lemma FrameLine(st: ParserState, lines: seq<string>, j: nat, decode: string -> Frame)
    requires j < |lines| && DataPrefix <= lines[j] && lines[j][|DataPrefix|..] != DoneSentinel
    ensures ProcessLines(st, lines[j..], decode)
            == ProcessLines(ApplyFrame(st, decode(lines[j][|DataPrefix|..])), lines[j + 1..], decode)
  {
    assert lines[j] == DataPrefix + lines[j][|DataPrefix|..];
    assert lines[j..][0] == lines[j] && lines[j..][1..] == lines[j + 1..];
  }

  /** One `reader.read()` result, parsed by itself. */
  function ProcessChunk(st: ParserState, chunk: string, decode: string -> Frame): (r: ParserState)
    ensures st.events <= r.events
  {
    ProcessLines(st, ChunkLines(chunk), decode)
  }

  /** The outer `while`: every chunk read, in order, starting from no events and 0/0 totals. */
  function ProcessChunks(chunks: seq<string>, decode: string -> Frame): ParserState
    decreases |chunks|
  {
    if chunks == [] then Initial
    else ProcessChunk(ProcessChunks(chunks[..|chunks| - 1], decode), chunks[|chunks| - 1], decode)
  }

  /** Everything the stream enqueues before it is closed. */
  function StreamEvents(chunks: seq<string>, end: StreamEnd, decode: string -> Frame): (r: seq<StreamEvent>)
    // the parsed events come first; a failed read adds exactly one `error` at the end
    ensures ProcessChunks(chunks, decode).events <= r
    ensures end.EndOfStream? ==> r == ProcessChunks(chunks, decode).events
    ensures end.ReadFailed? ==> |r| == |ProcessChunks(chunks, decode).events| + 1 && r[|r| - 1] == ErrorEvent(end.detail)
  {
    ProcessChunks(chunks, decode).events + (if end.ReadFailed? then [ErrorEvent(end.detail)] else [])
  }

  // ---------------------------------------------------------------------------
  // The imperative parser

  /** The `ReadableStream` controller: `enqueue` appends, `close` may happen once. */
  class StreamController {
    var queued: seq<StreamEvent>
    var closed: bool

    constructor ()
      ensures queued == [] && !closed
    {
      queued, closed := [], false;
    }

    method Enqueue(e: StreamEvent)
      requires !closed
      modifies this
      ensures queued == old(queued) + [e] && !closed
    {
      queued := queued + [e];
    }

    method Close()
      requires !closed
      modifies this
      ensures closed && queued == old(queued)
    {
      closed := true;
    }
  }

  /** The `start` body: read `chunks` one by one, then meet `end`; enqueue the
      events and close the controller on every path. */
  method Pump(controller: StreamController, chunks: seq<string>, end: StreamEnd, decode: string -> Frame)
    requires !controller.closed && controller.queued == []
    modifies controller
    ensures controller.closed
    ensures controller.queued == StreamEvents(chunks, end, decode)
  {
    var promptTokens: nat, completionTokens: nat := 0, 0;
    var i := 0;
    while i < |chunks|
      invariant 0 <= i <= |chunks|
      invariant !controller.closed
      invariant ParserState(controller.queued, Usage(promptTokens, completionTokens)) == ProcessChunks(chunks[..i], decode)
    {
      var lines := ChunkLines(chunks[i]);
      ghost var target := ProcessLines(ParserState(controller.queued, Usage(promptTokens, completionTokens)), lines, decode);
      var j := 0;
      while j < |lines|
        invariant 0 <= j <= |lines|
        invariant !controller.closed
        invariant ProcessLines(ParserState(controller.queued, Usage(promptTokens, completionTokens)), lines[j..], decode) == target
      {
        var line := lines[j];
        ghost var before := ParserState(controller.queued, Usage(promptTokens, completionTokens));
        if DataPrefix <= line {
          var data := line[|DataPrefix|..];
          if data == DoneSentinel {
            SentinelLine(before, lines, j, decode);
            controller.Enqueue(Finish(Stop, Usage(promptTokens, completionTokens)));
            break;
          }
          FrameLine(before, lines, j, decode);
          var frame := decode(data);
          if frame.Parsed? && frame.hasChoice {
            if frame.deltaContent.Some? && frame.deltaContent.value != "" {
              controller.Enqueue(TextDelta(frame.deltaContent.value));
            }
            if frame.usage.Some? {
              promptTokens := frame.usage.value.promptTokens;
              completionTokens := frame.usage.value.completionTokens;
            }
          }
          assert ParserState(controller.queued, Usage(promptTokens, completionTokens)) == ApplyFrame(before, frame);
        } else {
          SkipLine(before, lines, j, decode);
        }
        j := j + 1;
      }
      assert ParserState(controller.queued, Usage(promptTokens, completionTokens)) == target;
      assert chunks[..i + 1][..i] == chunks[..i];
      assert ProcessChunks(chunks[..i + 1], decode) == ProcessChunk(ProcessChunks(chunks[..i], decode), chunks[i], decode);
      i := i + 1;
    }
    assert chunks[..i] == chunks;
    if end.ReadFailed? {
      controller.Enqueue(ErrorEvent(end.detail));
    }
    controller.Close();
  }
}
