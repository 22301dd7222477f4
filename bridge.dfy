/**
 * `langchain_to_vercel_stream` of backend/utils.py as the loop it is: it
 * walks the agent events once, keeps the bridge's four mutable locals, and
 * appends each part it yields to `out`. Proved to write exactly
 * BridgeSpec.Translate, hence a well-formed UI message stream.
 */
module Bridge {
  import opened Wrappers
  import opened Json
  import opened StreamProtocol
  import opened BridgeSpec
  import BridgeLemmas

  method LangchainToVercelStream(src: Source, ids: Ids, codec: Codec) returns (out: seq<Part>)
    ensures out == Translate(src, ids, codec)
    ensures WellFormed(out) && ToolStartsUnique(out)
    ensures out[0] == Start("msg_" + ids.messageHex)
    ensures out[|out| - 2] == Finish && out[|out| - 1] == Done
  {
    var messageId := MessageId(ids);
    out := [Start(messageId)];
    var st, body := PumpEvents(src.events, ids, codec);
    out := out + body;
    var tail := CloseStream(st, src.raises);
    out := out + tail;
    BridgeLemmas.TranslateWellFormed(src, ids, codec);
  }

  /** The `async for event in astream_events` loop: the locals after the last event, and the parts written. */
  method PumpEvents(events: seq<Event>, ids: Ids, codec: Codec) returns (st: State, out: seq<Part>)
    ensures (st, out) == EventsStep(Init, events, ids, codec)
  {
    st, out := Init, [];
    var i := 0;
    while i < |events|
      invariant 0 <= i <= |events|
      invariant st == EventsStep(Init, events[..i], ids, codec).0
      invariant out == EventsStep(Init, events[..i], ids, codec).1
    {
      var parts;
      st, parts := OnEvent(st, events[i], ids, codec);
      out := out + parts;
      assert events[..i + 1][..i] == events[..i];
      i := i + 1;
    }
    assert events[..i] == events;
  }

  /** After the loop: the `except` branch, the cleanup after the `try`, `finish` and `[DONE]`. */
  method CloseStream(st: State, raises: Option<string>) returns (out: seq<Part>)
    ensures out == ErrorParts(raises) + Cleanup(st) + [Finish, Done]
  {
    out := [];
    if raises.Some? {
      out := out + [Error(raises.value)];
    }
    // close anything still open
    if st.textBlockOpen && st.textId != "" {
      out := out + [TextEnd(st.textId)];
    }
    if st.stepOpened {
      out := out + [FinishStep];
    }
    out := out + [Finish];
    out := out + [Done];
  }

  /**
   * The body of the `async for event in astream_events` loop: one event,
   * with the bridge's locals `step_opened`, `text_id`, `text_block_open` and
   * `seen_tool_call_ids` (and the count of text ids drawn) in `st`.
   */
  method OnEvent(st: State, ev: Event, ids: Ids, codec: Codec) returns (st': State, out: seq<Part>)
    ensures st' == EventStep(st, ev, ids, codec).0
    ensures out == EventStep(st, ev, ids, codec).1
  {
    var stepOpened, textId, textBlockOpen := st.stepOpened, st.textId, st.textBlockOpen;
    var seenToolCallIds, textCount := st.seen, st.textCount;
    out := [];
    match ev {
      case ChatModelStart =>
        if stepOpened {
          out := out + [FinishStep];
        }
        out := out + [StartStep];
        stepOpened := true;

      case ChatModelStream(content, chunks) =>
        if content != "" {
          if !textBlockOpen {
            textId := "text_" + ids.textHex(textCount);
            textCount := textCount + 1;
            out := out + [TextStart(textId)];
            textBlockOpen := true;
          }
          out := out + [TextDelta(textId, content)];
        }
        ghost var textParts := out;
        assert StreamText(st, content, ids).0 == State(stepOpened, textId, textBlockOpen, seenToolCallIds, textCount);
        assert StreamText(st, content, ids).1 == textParts by {
          if content != "" && !st.textBlockOpen {
            assert textParts == [TextStart(textId), TextDelta(textId, content)];
          }
        }
        var parts;
        seenToolCallIds, parts := StreamToolCallChunks(seenToolCallIds, chunks);
        out := out + parts;

      case ChatModelEnd(calls) =>
        if textBlockOpen && textId != "" {
          out := out + [TextEnd(textId)];
          textBlockOpen := false;
          textId := "";
        }
        ghost var closeParts := out;
        assert CloseText(st).0 == State(stepOpened, textId, textBlockOpen, seenToolCallIds, textCount);
        assert CloseText(st).1 == closeParts;
        var parts;
        seenToolCallIds, parts := FinaliseToolCalls(seenToolCallIds, calls, codec.dumps);
        out := out + parts;
        if stepOpened {
          out := out + [FinishStep];
          stepOpened := false;
        }

      case ToolStart =>
        if !stepOpened {
          out := out + [StartStep];
          stepOpened := true;
        }

      case ToolEnd(tcId, content) =>
        var rawContent := match content
          case Str(s) => s
          case Structured(j) => codec.dumps(j);
        var outputVal := match codec.loads(rawContent)
          case Some(v) => v
          case None => JString(rawContent);
        out := out + [ToolOutputAvailable(tcId, outputVal)];

      case Other(_) =>
    }
    st' := State(stepOpened, textId, textBlockOpen, seenToolCallIds, textCount);
  }

  /** The `for tc in tc_chunks` loop of on_chat_model_stream. */
  method StreamToolCallChunks(seen: set<string>, chunks: seq<ToolCallChunk>) returns (seen': set<string>, out: seq<Part>)
    ensures (seen', out) == ChunksStep(seen, chunks)
  {
    seen', out := seen, [];
    var j := 0;
    while j < |chunks|
      invariant 0 <= j <= |chunks|
      invariant seen' == ChunksStep(seen, chunks[..j]).0
      invariant out == ChunksStep(seen, chunks[..j]).1
    {
      var tc := chunks[j];
      ghost var seenBefore, outBefore := seen', out;
      ghost var added: seq<Part> := [];
      if tc.id.Some? && tc.id.value != "" {
        var tcId := tc.id.value;
        ghost var announce: seq<Part> := [];
        if tcId !in seen' {
          seen' := seen' + {tcId};
          out := out + [ToolInputStart(tcId, NameOr(tc.name))];
          announce := [ToolInputStart(tcId, NameOr(tc.name))];
        }
        ghost var delta: seq<Part> := [];
        if tc.args != "" {
          out := out + [ToolInputDelta(tcId, tc.args)];
          delta := [ToolInputDelta(tcId, tc.args)];
        }
        assert seen' == seenBefore + {tcId};
        added := announce + delta;
      }
      assert out == outBefore + added;
      assert ChunkStep(seenBefore, tc).0 == seen';
      assert ChunkStep(seenBefore, tc).1 == added;
      assert chunks[..j + 1][..j] == chunks[..j];
      j := j + 1;
    }
    assert chunks[..j] == chunks;
  }

  /** The `for tc in output.tool_calls` loop of on_chat_model_end. */
  method FinaliseToolCalls(seen: set<string>, calls: seq<ToolCall>, dumps: Json -> string) returns (seen': set<string>, out: seq<Part>)
    ensures (seen', out) == CallsStep(seen, calls, dumps)
  {
    seen', out := seen, [];
    var j := 0;
    while j < |calls|
      invariant 0 <= j <= |calls|
      invariant seen' == CallsStep(seen, calls[..j], dumps).0
      invariant out == CallsStep(seen, calls[..j], dumps).1
    {
      var tc := calls[j];
      ghost var seenBefore, outBefore := seen', out;
      ghost var announce: seq<Part> := [];
      if tc.id !in seen' {
        seen' := seen' + {tc.id};
        out := out + [ToolInputStart(tc.id, tc.name)];
        out := out + [ToolInputDelta(tc.id, dumps(tc.args))];
        announce := [ToolInputStart(tc.id, tc.name), ToolInputDelta(tc.id, dumps(tc.args))];
      }
      out := out + [ToolInputAvailable(tc.id, tc.name, tc.args)];
      assert seen' == seenBefore + {tc.id};
      ghost var added := announce + [ToolInputAvailable(tc.id, tc.name, tc.args)];
      assert out == outBefore + added;
      assert CallStep(seenBefore, tc, dumps).0 == seen';
      assert CallStep(seenBefore, tc, dumps).1 == added;
      assert calls[..j + 1][..j] == calls[..j];
      j := j + 1;
    }
    assert calls[..j] == calls;
  }
}
