/** What the stream parser of `doStream` guarantees, proved about the
    functions that specify `GigaChatStream.Pump`. */
module GigaChatStreamProps {
  import opened Wrappers
  import opened GigaChatFinish
  import opened GigaChatStream

  // ---------------------------------------------------------------------------
  // Splitting on '\n' loses nothing and invents nothing

  lemma {:induction false} JoinSplit(s: string)
    ensures JoinLines(SplitLines(s)) == s
    decreases |s|
  {
    if s != [] {
      JoinSplit(s[1..]);
      var rest := SplitLines(s[1..]);
      assert s == [s[0]] + s[1..];
      if s[0] == '\n' {
        assert JoinLines(SplitLines(s)) == "" + "\n" + JoinLines(rest) by {
          assert SplitLines(s) == [""] + rest;
          assert ([""] + rest)[1..] == rest;
        }
      } else {
        var first := [s[0]] + rest[0];
        assert SplitLines(s) == [first] + rest[1..];
        if |rest| == 1 {
          assert JoinLines(SplitLines(s)) == first;
        } else {
          assert JoinLines(SplitLines(s)) == first + "\n" + JoinLines(rest[1..]) by {
            assert ([first] + rest[1..])[1..] == rest[1..];
          }
          assert JoinLines(rest) == rest[0] + "\n" + JoinLines(rest[1..]);
        }
      }
    }
  }

  /** A string without newlines is one line. */
  lemma {:induction false} SplitSingleLine(a: string)
    requires '\n' !in a
    ensures SplitLines(a) == [a]
    decreases |a|
  {
    if a != [] {
      assert a == [a[0]] + a[1..];
      assert a[0] in a;
      assert forall c :: c in a[1..] ==> c in a;
      SplitSingleLine(a[1..]);
    }
  }

  lemma {:induction false} SplitLeadingLine(a: string, rest: string)
    requires '\n' !in a
    ensures SplitLines(a + "\n" + rest) == [a] + SplitLines(rest)
    decreases |a|
  {
    if a == [] {
      assert a + "\n" + rest == "\n" + rest;
      assert ("\n" + rest)[1..] == rest;
    } else {
      var s := a + "\n" + rest;
      assert s[0] == a[0] && s[1..] == a[1..] + "\n" + rest;
      assert a[0] in a;
      assert forall c :: c in a[1..] ==> c in a;
      SplitLeadingLine(a[1..], rest);
      assert [a[0]] + a[1..] == a;
    }
  }

  lemma {:induction false} SplitJoin(lines: seq<string>)
    requires |lines| >= 1
    requires forall k :: 0 <= k < |lines| ==> '\n' !in lines[k]
    ensures SplitLines(JoinLines(lines)) == lines
    decreases |lines|
  {
    if |lines| == 1 {
      SplitSingleLine(lines[0]);
    } else {
      SplitJoin(lines[1..]);
      SplitLeadingLine(lines[0], JoinLines(lines[1..]));
      assert lines == [lines[0]] + lines[1..];
    }
  }

  // ---------------------------------------------------------------------------
  // The blank-line filter keeps order and works line by line

  lemma NonBlankSingle(l: string)
    ensures NonBlank([l]) == if IsBlank(l) then [] else [l]
  {
    assert [l][1..] == [];
  }

  lemma {:induction false} NonBlankAppend(a: seq<string>, b: seq<string>)
    ensures NonBlank(a + b) == NonBlank(a) + NonBlank(b)
  {
    if a == [] {
      assert a + b == b;
    } else {
      assert (a + b)[0] == a[0] && (a + b)[1..] == a[1..] + b;
      NonBlankAppend(a[1..], b);
    }
  }

  // ---------------------------------------------------------------------------
  // Lines before the sentinel: the text increments in order, the last usage

  /** The text increments a sequence of lines enqueues, one line at a time. */
  function TextDeltas(lines: seq<string>, decode: string -> Frame): seq<StreamEvent>
  {
    if lines == [] then [] else LineDelta(lines[0], decode) + TextDeltas(lines[1..], decode)
  }

  /** The totals after the lines: those of the last frame that carried usage, or `u`. */
  function UsageAfter(u: Usage, lines: seq<string>, decode: string -> Frame): Usage
    decreases |lines|
  {
    if lines == [] then u else UsageAfter(LineUsage(u, lines[0], decode), lines[1..], decode)
  }

  /** The per-line step case by case: a line without the `data: ` prefix, a
      malformed frame and a frame without `choices[0]` change nothing; a frame
      with a choice enqueues its non-empty `delta.content` and replaces both
      totals when it has `usage`. */
  lemma LineStepCases(st: ParserState, line: string, decode: string -> Frame)
    ensures !(DataPrefix <= line) ==> LineStep(st, line, decode) == LineOutcome(st, false)
    ensures DataPrefix <= line && line != DoneLine
            && (decode(line[|DataPrefix|..]).Malformed? || !decode(line[|DataPrefix|..]).hasChoice)
            ==> LineStep(st, line, decode) == LineOutcome(st, false)
    ensures DataPrefix <= line && line != DoneLine && decode(line[|DataPrefix|..]).Parsed?
            && decode(line[|DataPrefix|..]).hasChoice
            ==> var f := decode(line[|DataPrefix|..]);
                var r := LineStep(st, line, decode);
                r.state.usage == f.usage.GetOr(st.usage)
                && r.state.events == st.events + (if f.deltaContent.Some? && f.deltaContent.value != ""
                                                  then [TextDelta(f.deltaContent.value)] else [])
  {
    if !(DataPrefix <= line) {
      assert st.events + [] == st.events;
    }
    if DataPrefix <= line && line != DoneLine {
      var f := decode(line[|DataPrefix|..]);
      if f.Malformed? || !f.hasChoice {
        assert st.events + [] == st.events;
      }
    }
  }

  /** The per-line loop past a first line that is not the sentinel. */
  lemma LinesPastFirst(st: ParserState, lines: seq<string>, decode: string -> Frame)
    requires lines != [] && lines[0] != DoneLine
    ensures ProcessLines(st, lines, decode)
            == ProcessLines(ParserState(st.events + LineDelta(lines[0], decode), LineUsage(st.usage, lines[0], decode)),
                            lines[1..], decode)
  {
  }

  /** Without the sentinel, the lines enqueue exactly their text increments and
      leave the totals of the last usage frame. */
  lemma {:induction false} LinesWithoutSentinel(st: ParserState, lines: seq<string>, decode: string -> Frame)
    requires DoneLine !in lines
    ensures ProcessLines(st, lines, decode)
            == ParserState(st.events + TextDeltas(lines, decode), UsageAfter(st.usage, lines, decode))
    decreases |lines|
  {
    if lines == [] {
      assert st.events + [] == st.events;
    } else {
      var line := lines[0];
      var next := ParserState(st.events + LineDelta(line, decode), LineUsage(st.usage, line, decode));
      assert ProcessLines(st, lines, decode) == ProcessLines(next, lines[1..], decode) by {
        assert line in lines;
        LinesPastFirst(st, lines, decode);
      }
      assert DoneLine !in lines[1..] by {
        assert forall l :: l in lines[1..] ==> l in lines;
      }
      LinesWithoutSentinel(next, lines[1..], decode);
      assert TextDeltas(lines, decode) == LineDelta(line, decode) + TextDeltas(lines[1..], decode);
      assert UsageAfter(st.usage, lines, decode) == UsageAfter(next.usage, lines[1..], decode);
      assert next.events + TextDeltas(lines[1..], decode) == st.events + TextDeltas(lines, decode);
    }
  }

  /** Every line a chunk yields is non-blank and has no newline. */
  lemma ChunkLinesClean(chunk: string)
    ensures forall k :: 0 <= k < |ChunkLines(chunk)| ==> !IsBlank(ChunkLines(chunk)[k]) && '\n' !in ChunkLines(chunk)[k]
  {
    var lines := ChunkLines(chunk);
    forall k | 0 <= k < |lines|
      ensures !IsBlank(lines[k]) && '\n' !in lines[k]
    {
      assert lines[k] in lines;
    }
  }

  /** Lines none of which carries usage leave the totals alone. */
  lemma {:induction false} UsageUnchanged(u: Usage, lines: seq<string>, decode: string -> Frame)
    requires forall l :: l in lines ==> !UpdatesUsage(l, decode)
    ensures UsageAfter(u, lines, decode) == u
    decreases |lines|
  {
    if lines != [] {
      assert lines[0] in lines;
      assert forall l :: l in lines[1..] ==> l in lines;
      UsageUnchanged(u, lines[1..], decode);
    }
  }

  // ---------------------------------------------------------------------------
  // Chunks are parsed one after another, each by itself

  /** Reading one more chunk runs the per-line loop over its lines, from the
      state the earlier chunks left. */
  lemma ChunksAppend(cs: seq<string>, c: string, decode: string -> Frame)
    ensures ProcessChunks(cs + [c], decode) == ProcessLines(ProcessChunks(cs, decode), ChunkLines(c), decode)
  {
    assert (cs + [c])[..|cs|] == cs;
  }

  /** What was enqueued after any prefix of the chunks stays at the front. */
  lemma {:induction false} PrefixEventsArePrefix(chunks: seq<string>, i: nat, decode: string -> Frame)
    requires i <= |chunks|
    ensures ProcessChunks(chunks[..i], decode).events <= ProcessChunks(chunks, decode).events
    decreases |chunks|
  {
    if i == |chunks| {
      assert chunks[..i] == chunks;
    } else {
      var init := chunks[..|chunks| - 1];
      assert init[..i] == chunks[..i];
      PrefixEventsArePrefix(init, i, decode);
    }
  }

  /** A chunk without the sentinel adds its text increments and its last usage,
      whatever came before, a sentinel in an earlier chunk included. */
  lemma ChunkWithoutSentinel(cs: seq<string>, c: string, decode: string -> Frame)
    requires DoneLine !in ChunkLines(c)
    ensures var st := ProcessChunks(cs, decode);
            ProcessChunks(cs + [c], decode)
            == ParserState(st.events + TextDeltas(ChunkLines(c), decode), UsageAfter(st.usage, ChunkLines(c), decode))
  {
    ChunksAppend(cs, c, decode);
    LinesWithoutSentinel(ProcessChunks(cs, decode), ChunkLines(c), decode);
  }

  /** A chunk holding the sentinel adds the text increments before it, then a
      `stop` finish with the totals of the last usage frame before it. */
  lemma SentinelChunkFinish(cs: seq<string>, c: string, pre: seq<string>, post: seq<string>, decode: string -> Frame)
    requires ChunkLines(c) == pre + [DoneLine] + post && DoneLine !in pre
    ensures var st := ProcessChunks(cs, decode);
            var u := UsageAfter(st.usage, pre, decode);
            ProcessChunks(cs + [c], decode)
            == ParserState(st.events + TextDeltas(pre, decode) + [Finish(Stop, u)], u)
  {
    var st := ProcessChunks(cs, decode);
    ChunksAppend(cs, c, decode);
    SentinelEndsChunk(st, pre, post, decode);
    LinesWithoutSentinel(st, pre, decode);
  }

  /** A chunk with no sentinel and no usage frame. */
  predicate Quiet(chunk: string, decode: string -> Frame)
  {
    DoneLine !in ChunkLines(chunk) && forall l :: l in ChunkLines(chunk) ==> !UpdatesUsage(l, decode)
  }

  lemma {:induction false} QuietChunksKeepZero(cs: seq<string>, decode: string -> Frame)
    requires forall k :: 0 <= k < |cs| ==> Quiet(cs[k], decode)
    ensures ProcessChunks(cs, decode).usage == Usage(0, 0)
    decreases |cs|
  {
    if cs != [] {
      var init, last := cs[..|cs| - 1], cs[|cs| - 1];
      assert forall k :: 0 <= k < |init| ==> init[k] == cs[k];
      QuietChunksKeepZero(init, decode);
      assert Quiet(last, decode);
      ChunkWithoutSentinel(init, last, decode);
      assert cs == init + [last];
      UsageUnchanged(Usage(0, 0), ChunkLines(last), decode);
    }
  }

  // ---------------------------------------------------------------------------
  // One finish per chunk that holds the sentinel line, and no other

  function CountFinishes(events: seq<StreamEvent>): nat
  {
    if events == [] then 0 else (if events[0].Finish? then 1 else 0) + CountFinishes(events[1..])
  }

  lemma {:induction false} CountFinishesAppend(a: seq<StreamEvent>, b: seq<StreamEvent>)
    ensures CountFinishes(a + b) == CountFinishes(a) + CountFinishes(b)
  {
    if a == [] {
      assert a + b == b;
    } else {
      assert (a + b)[1..] == a[1..] + b;
      CountFinishesAppend(a[1..], b);
    }
  }

  /** The chunk has a line that is exactly `data: [DONE]`. */
  predicate HasDone(chunk: string)
  {
    DoneLine in SplitLines(chunk)
  }

  function ChunksWithDone(chunks: seq<string>): nat
    decreases |chunks|
  {
    if chunks == [] then 0
    else ChunksWithDone(chunks[..|chunks| - 1]) + (if HasDone(chunks[|chunks| - 1]) then 1 else 0)
  }

  lemma {:induction false} LinesFinishes(st: ParserState, lines: seq<string>, decode: string -> Frame)
    ensures CountFinishes(ProcessLines(st, lines, decode).events)
            == CountFinishes(st.events) + (if DoneLine in lines then 1 else 0)
    decreases |lines|
  {
    if lines != [] {
      var step := LineStep(st, lines[0], decode);
      assert lines == [lines[0]] + lines[1..];
      if step.breaks {
        CountFinishesAppend(st.events, [Finish(Stop, st.usage)]);
      } else {
        assert lines[0] != DoneLine;
        assert DoneLine in lines <==> DoneLine in lines[1..];
        var delta := LineDelta(lines[0], decode);
        CountFinishesAppend(st.events, delta);
        assert CountFinishes(delta) == 0 by {
          if delta != [] {
            assert delta[1..] == [];
          }
        }
        LinesFinishes(step.state, lines[1..], decode);
      }
    }
  }

  lemma DoneLineIsNotBlank()
    ensures !IsBlank(DoneLine)
  {
    assert DoneLine[0] == 'd' && !IsJsWhitespace('d');
  }

  lemma {:induction false} ChunkFinishCount(chunks: seq<string>, decode: string -> Frame)
    ensures CountFinishes(ProcessChunks(chunks, decode).events) == ChunksWithDone(chunks)
    decreases |chunks|
  {
    if chunks != [] {
      var init := chunks[..|chunks| - 1];
      var last := chunks[|chunks| - 1];
      ChunkFinishCount(init, decode);
      DoneLineIsNotBlank();
      assert DoneLine in ChunkLines(last) <==> HasDone(last);
      LinesFinishes(ProcessChunks(init, decode), ChunkLines(last), decode);
    }
  }

  /** Every chunk holding the sentinel line adds exactly one `finish`; nothing
      else does. In particular no `finish` appears if the sentinel never comes,
      and two sentinels in two chunks give two. */
  lemma {:induction false} FinishCount(chunks: seq<string>, end: StreamEnd, decode: string -> Frame)
    ensures CountFinishes(StreamEvents(chunks, end, decode)) == ChunksWithDone(chunks)
  {
    ChunkFinishCount(chunks, decode);
    var tail: seq<StreamEvent> := if end.ReadFailed? then [ErrorEvent(end.detail)] else [];
    CountFinishesAppend(ProcessChunks(chunks, decode).events, tail);
    assert CountFinishes(tail) == 0;
  }

  lemma {:induction false} NoFinishWithoutSentinel(chunks: seq<string>, end: StreamEnd, decode: string -> Frame)
    requires forall k :: 0 <= k < |chunks| ==> !HasDone(chunks[k])
    ensures forall k :: 0 <= k < |StreamEvents(chunks, end, decode)| ==> !StreamEvents(chunks, end, decode)[k].Finish?
  {
    NoDoneChunks(chunks);
    FinishCount(chunks, end, decode);
    var ev := StreamEvents(chunks, end, decode);
    forall k | 0 <= k < |ev|
      ensures !ev[k].Finish?
    {
      CountFinishesAppend(ev[..k], ev[k..]);
      assert ev == ev[..k] + ev[k..];
      assert ev[k..][0] == ev[k];
    }
  }

  lemma {:induction false} NoDoneChunks(chunks: seq<string>)
    requires forall k :: 0 <= k < |chunks| ==> !HasDone(chunks[k])
    ensures ChunksWithDone(chunks) == 0
    decreases |chunks|
  {
    if chunks != [] {
      NoDoneChunks(chunks[..|chunks| - 1]);
    }
  }

  // ---------------------------------------------------------------------------
  // An error event only on a failed read, and then last

  predicate NoErrors(events: seq<StreamEvent>)
  {
    forall k :: 0 <= k < |events| ==> !events[k].ErrorEvent?
  }

  lemma {:induction false} LinesNoErrors(st: ParserState, lines: seq<string>, decode: string -> Frame)
    requires NoErrors(st.events)
    ensures NoErrors(ProcessLines(st, lines, decode).events)
    decreases |lines|
  {
    if lines != [] {
      var step := LineStep(st, lines[0], decode);
      if !step.breaks {
        var delta := LineDelta(lines[0], decode);
        assert step.state.events == st.events + delta;
        LinesNoErrors(step.state, lines[1..], decode);
      }
    }
  }

  lemma {:induction false} ChunksNoErrors(chunks: seq<string>, decode: string -> Frame)
    ensures NoErrors(ProcessChunks(chunks, decode).events)
    decreases |chunks|
  {
    if chunks != [] {
      ChunksNoErrors(chunks[..|chunks| - 1], decode);
      LinesNoErrors(ProcessChunks(chunks[..|chunks| - 1], decode), ChunkLines(chunks[|chunks| - 1]), decode);
    }
  }

  /** A read failure adds exactly one `error`, after everything already
      enqueued; a stream read to its end has none. */
  lemma ErrorOnlyOnReadFailure(chunks: seq<string>, end: StreamEnd, decode: string -> Frame)
    ensures var ev := StreamEvents(chunks, end, decode);
            match end
            case EndOfStream => NoErrors(ev)
            case ReadFailed(detail) =>
              |ev| >= 1 && ev[|ev| - 1] == ErrorEvent(detail) && NoErrors(ev[..|ev| - 1])
              && ev[..|ev| - 1] == StreamEvents(chunks, EndOfStream, decode)
  {
    ChunksNoErrors(chunks, decode);
    var clean := ProcessChunks(chunks, decode).events;
    assert StreamEvents(chunks, EndOfStream, decode) == clean + [] == clean;
    if end.ReadFailed? {
      assert (clean + [ErrorEvent(end.detail)])[..|clean|] == clean;
    }
  }

  // ---------------------------------------------------------------------------
  // The sentinel ends its chunk, not the stream

  /** `data: [DONE]` enqueues a `stop` finish with the totals so far, and the
      lines after it in the same chunk are not looked at. */
  lemma {:induction false} SentinelEndsChunk(st: ParserState, pre: seq<string>, post: seq<string>, decode: string -> Frame)
    requires DoneLine !in pre
    ensures var before := ProcessLines(st, pre, decode);
            ProcessLines(st, pre + [DoneLine] + post, decode)
            == ParserState(before.events + [Finish(Stop, before.usage)], before.usage)
    decreases |pre|
  {
    var lines := pre + [DoneLine] + post;
    if pre == [] {
      assert lines[0] == DoneLine;
    } else {
      assert lines[0] == pre[0] && pre[0] != DoneLine;
      assert lines[1..] == pre[1..] + [DoneLine] + post;
      assert DoneLine !in pre[1..] by {
        assert forall l :: l in pre[1..] ==> l in pre;
      }
      SentinelEndsChunk(LineStep(st, pre[0], decode).state, pre[1..], post, decode);
    }
  }

  /** The running totals start at 0/0: when no frame before the first
      sentinel carries usage, its finish reports 0/0. */
  lemma FirstSentinelReportsZero(cs: seq<string>, c: string, pre: seq<string>, post: seq<string>, decode: string -> Frame)
    requires forall k :: 0 <= k < |cs| ==> Quiet(cs[k], decode)
    requires ChunkLines(c) == pre + [DoneLine] + post && DoneLine !in pre
    requires forall l :: l in pre ==> !UpdatesUsage(l, decode)
    ensures ProcessChunks(cs + [c], decode).events
            == ProcessChunks(cs, decode).events + TextDeltas(pre, decode) + [Finish(Stop, Usage(0, 0))]
  {
    QuietChunksKeepZero(cs, decode);
    SentinelChunkFinish(cs, c, pre, post, decode);
    UsageUnchanged(Usage(0, 0), pre, decode);
  }

  /** A data line whose payload decodes to a frame with a choice and non-empty
      text enqueues that text, and takes the frame's usage if it has one. */
  lemma TextFrame(st: ParserState, payload: string, t: string, u: Option<Usage>, decode: string -> Frame)
    requires payload != DoneSentinel && t != ""
    requires decode(payload) == Parsed(true, Some(t), u)
    ensures LineStep(st, DataPrefix + payload, decode)
            == LineOutcome(ParserState(st.events + [TextDelta(t)], u.GetOr(st.usage)), false)
  {
    var line := DataPrefix + payload;
    assert DataPrefix <= line;
    assert line[|DataPrefix|..] == payload;
  }

  /** A data line whose payload `JSON.parse` rejects changes nothing. */
  lemma MalformedFrame(st: ParserState, payload: string, decode: string -> Frame)
    requires payload != DoneSentinel && decode(payload) == Malformed
    ensures LineStep(st, DataPrefix + payload, decode) == LineOutcome(st, false)
  {
    var line := DataPrefix + payload;
    assert DataPrefix <= line;
    assert line[|DataPrefix|..] == payload;
  }

  /** For example: a text frame in the chunk after the sentinel's chunk is
      still enqueued, after the finish. */
  lemma ChunkAfterSentinelStillParsed(c1: string, c2: string, payload: string, t: string, decode: string -> Frame)
    requires ChunkLines(c1) == [DoneLine]
    requires ChunkLines(c2) == [DataPrefix + payload]
    requires payload != DoneSentinel && t != ""
    requires decode(payload) == Parsed(true, Some(t), None)
    ensures StreamEvents([c1, c2], EndOfStream, decode) == [Finish(Stop, Usage(0, 0)), TextDelta(t)]
  {
    var line := DataPrefix + payload;
    var st := ParserState([Finish(Stop, Usage(0, 0))], Usage(0, 0));
    assert ProcessChunks([c1], decode) == st by {
      assert ChunkLines(c1) == [] + [DoneLine] + [];
      SentinelChunkFinish([], c1, [], [], decode);
      assert [] + [c1] == [c1];
    }
    assert DataPrefix <= line && line[|DataPrefix|..] == payload;
    assert ProcessChunks([c1, c2], decode).events == st.events + TextDeltas([line], decode) by {
      assert DoneLine[|DataPrefix|..] == DoneSentinel;
      assert DoneLine !in ChunkLines(c2);
      ChunkWithoutSentinel([c1], c2, decode);
      assert [c1] + [c2] == [c1, c2];
    }
    assert TextDeltas([line], decode) == [TextDelta(t)] by {
      assert LineDelta(line, decode) == [TextDelta(t)];
      assert [line][1..] == [];
    }
  }

  // ---------------------------------------------------------------------------
  // Bad frames are skipped; a line cut by a chunk boundary is lost

  /** A malformed frame between two good ones: the two text increments and nothing else. */
  lemma MalformedFrameSkipped(p1: string, bad: string, p2: string, t1: string, t2: string, decode: string -> Frame)
    requires p1 != DoneSentinel && bad != DoneSentinel && p2 != DoneSentinel
    requires t1 != "" && t2 != ""
    requires decode(p1) == Parsed(true, Some(t1), None) && decode(p2) == Parsed(true, Some(t2), None)
    requires decode(bad) == Malformed
    ensures ProcessLines(Initial, [DataPrefix + p1, DataPrefix + bad, DataPrefix + p2], decode).events
            == [TextDelta(t1), TextDelta(t2)]
  {
    var l1, lb, l2 := DataPrefix + p1, DataPrefix + bad, DataPrefix + p2;
    TextFrame(Initial, p1, t1, None, decode);
    var s1 := ParserState([TextDelta(t1)], Usage(0, 0));
    MalformedFrame(s1, bad, decode);
    TextFrame(s1, p2, t2, None, decode);
    var lines := [l1, lb, l2];
    assert lines[1..] == [lb, l2] && lines[1..][1..] == [l2];
    assert Initial.events + [TextDelta(t1)] == s1.events;
    assert ProcessLines(Initial, lines, decode) == ProcessLines(s1, [lb, l2], decode);
    assert ProcessLines(s1, [lb, l2], decode) == ProcessLines(s1, [l2], decode);
    assert ProcessLines(s1, [l2], decode).events == [TextDelta(t1), TextDelta(t2)];
  }

  /** A frame cut by a chunk boundary: neither half is a complete `data:` frame,
      so nothing is enqueued for it. */
  lemma {:induction false} FrameCutByChunkBoundary(head: string, tail: string, decode: string -> Frame)
    requires '\n' !in head && '\n' !in tail
    requires !(DataPrefix <= tail)
    requires head != DoneSentinel && decode(head) == Malformed
    ensures StreamEvents([DataPrefix + head, tail], EndOfStream, decode) == []
  {
    var c1 := DataPrefix + head;
    assert [c1] + [tail] == [c1, tail];
    assert ChunkLines(c1) == [c1] by {
      assert '\n' !in c1 by {
        assert forall k :: 0 <= k < |c1| ==> c1[k] == (if k < |DataPrefix| then DataPrefix[k] else head[k - |DataPrefix|]);
      }
      SplitSingleLine(c1);
      assert c1[0] == 'd' && !IsJsWhitespace('d');
      NonBlankSingle(c1);
    }
    assert ProcessChunks([c1], decode).events == [] by {
      assert DataPrefix <= c1 && c1[|DataPrefix|..] == head;
      assert DoneLine[|DataPrefix|..] == DoneSentinel;
      assert c1 != DoneLine;
      ChunkWithoutSentinel([], c1, decode);
      assert [] + [c1] == [c1];
      assert LineDelta(c1, decode) == [];
      assert [c1][1..] == [];
      assert TextDeltas([c1], decode) == [];
    }
    assert ProcessChunks([c1, tail], decode).events == ProcessChunks([c1], decode).events by {
      assert ChunkLines(tail) == NonBlank([tail]) by {
        SplitSingleLine(tail);
      }
      NonBlankSingle(tail);
      assert DataPrefix <= DoneLine;
      assert DoneLine !in ChunkLines(tail);
      ChunkWithoutSentinel([c1], tail, decode);
      assert LineDelta(tail, decode) == [];
      assert [tail][1..] == [];
      assert TextDeltas(ChunkLines(tail), decode) == [];
    }
  }

  /** Lines end at '\n' only: a `data: [DONE]` line ending in '\r' is not the
      sentinel, and with `JSON.parse` rejecting its payload it is skipped. */
  lemma CarriageReturnHidesSentinel(st: ParserState, decode: string -> Frame)
    requires decode(DoneSentinel + "\r") == Malformed
    ensures LineStep(st, DoneLine + "\r", decode) == LineOutcome(st, false)
  {
    var line := DoneLine + "\r";
    assert DataPrefix <= line;
    assert line[|DataPrefix|..] == DoneSentinel + "\r";
  }
}
