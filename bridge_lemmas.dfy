/**
 * What the bridge of backend/utils.py guarantees about the stream it writes:
 * the whole stream is well formed (module StreamProtocol), each tool call is
 * announced once, and the per-event promises on chunks, model end and tool end.
 */
module BridgeLemmas {
  import opened Wrappers
  import opened Json
  import opened StreamProtocol
  import opened BridgeSpec

  /** `text_id` is set exactly while a text block is open. */
  ghost predicate Inv(st: State) {
    st.textBlockOpen <==> st.textId != ""
  }

  /** What a reader of the stream knows once the bridge is in state `st`. */
  function MonitorOf(st: State): Monitor {
    Monitor(Streaming, st.stepOpened, if st.textBlockOpen then Some(st.textId) else None, st.seen)
  }

  lemma CheckOne(m: Monitor, a: Part)
    ensures CheckAll(m, [a]) == Check(m, a)
  {
    assert [a][1..] == [];
  }

  lemma CheckPair(m: Monitor, a: Part, b: Part)
    ensures CheckAll(m, [a, b]) == if Check(m, a).None? then None else Check(Check(m, a).value, b)
  {
    assert [a, b][1..] == [b];
    if Check(m, a).Some? {
      CheckOne(Check(m, a).value, b);
    }
  }

  // ---------------------------------------------------------------------------
  // Tool-call chunks and final tool calls leave steps and text alone

  lemma ChunkStepAccepted(step: bool, text: Option<string>, seen: set<string>, c: ToolCallChunk)
    ensures CheckAll(Monitor(Streaming, step, text, seen), ChunkStep(seen, c).1)
         == Some(Monitor(Streaming, step, text, ChunkStep(seen, c).0))
  {
    var m := Monitor(Streaming, step, text, seen);
    if c.id.Some? && c.id.value != "" {
      var id := c.id.value;
      var announce := if id !in seen then [ToolInputStart(id, NameOr(c.name))] else [];
      var delta := if c.args != "" then [ToolInputDelta(id, c.args)] else [];
      CheckAllAppend(m, announce, delta);
      var m' := m.(tools := seen + {id});
      if id !in seen {
        CheckOne(m, ToolInputStart(id, NameOr(c.name)));
      } else {
        assert seen + {id} == seen;
      }
      assert CheckAll(m, announce) == Some(m');
      if c.args != "" {
        CheckOne(m', ToolInputDelta(id, c.args));
      }
      assert CheckAll(m', delta) == Some(m');
    }
  }

  lemma {:induction false} ChunksStepAccepted(step: bool, text: Option<string>, seen: set<string>, cs: seq<ToolCallChunk>)
    ensures CheckAll(Monitor(Streaming, step, text, seen), ChunksStep(seen, cs).1)
         == Some(Monitor(Streaming, step, text, ChunksStep(seen, cs).0))
    decreases |cs|
  {
    if cs != [] {
      var (s1, f1) := ChunksStep(seen, cs[..|cs| - 1]);
      ChunksStepAccepted(step, text, seen, cs[..|cs| - 1]);
      ChunkStepAccepted(step, text, s1, cs[|cs| - 1]);
      CheckAllAppend(Monitor(Streaming, step, text, seen), f1, ChunkStep(s1, cs[|cs| - 1]).1);
    }
  }

  lemma CallStepAccepted(step: bool, text: Option<string>, seen: set<string>, c: ToolCall, dumps: Json -> string)
    ensures CheckAll(Monitor(Streaming, step, text, seen), CallStep(seen, c, dumps).1)
         == Some(Monitor(Streaming, step, text, CallStep(seen, c, dumps).0))
  {
    var m := Monitor(Streaming, step, text, seen);
    var m' := m.(tools := seen + {c.id});
    var announce :=
      if c.id !in seen then [ToolInputStart(c.id, c.name), ToolInputDelta(c.id, dumps(c.args))] else [];
    CheckAllAppend(m, announce, [ToolInputAvailable(c.id, c.name, c.args)]);
    if c.id !in seen {
      CheckPair(m, ToolInputStart(c.id, c.name), ToolInputDelta(c.id, dumps(c.args)));
    } else {
      assert seen + {c.id} == seen;
    }
    assert CheckAll(m, announce) == Some(m');
    CheckOne(m', ToolInputAvailable(c.id, c.name, c.args));
  }

  lemma {:induction false} CallsStepAccepted(step: bool, text: Option<string>, seen: set<string>, cs: seq<ToolCall>, dumps: Json -> string)
    ensures CheckAll(Monitor(Streaming, step, text, seen), CallsStep(seen, cs, dumps).1)
         == Some(Monitor(Streaming, step, text, CallsStep(seen, cs, dumps).0))
    decreases |cs|
  {
    if cs != [] {
      var (s1, f1) := CallsStep(seen, cs[..|cs| - 1], dumps);
      CallsStepAccepted(step, text, seen, cs[..|cs| - 1], dumps);
      CallStepAccepted(step, text, s1, cs[|cs| - 1], dumps);
      CheckAllAppend(Monitor(Streaming, step, text, seen), f1, CallStep(s1, cs[|cs| - 1], dumps).1);
    }
  }

  // ---------------------------------------------------------------------------
  // Every event keeps the stream well formed

  /**
   * Each event writes parts the protocol accepts from the current state, and
   * leaves the reader's view equal to the bridge's new state.
   */
  lemma EventStepAccepted(st: State, ev: Event, ids: Ids, codec: Codec)
    requires Inv(st)
    ensures Inv(EventStep(st, ev, ids, codec).0)
    ensures CheckAll(MonitorOf(st), EventStep(st, ev, ids, codec).1) == Some(MonitorOf(EventStep(st, ev, ids, codec).0))
  {
    var m := MonitorOf(st);
    match ev
    case ChatModelStart =>
      if st.stepOpened {
        CheckPair(m, FinishStep, StartStep);
      }
    case ChatModelStream(content, chunks) =>
      var (s1, f1) := StreamText(st, content, ids);
      if content != "" && !st.textBlockOpen {
        CheckPair(m, TextStart(s1.textId), TextDelta(s1.textId, content));
      } else if content != "" {
        CheckOne(m, TextDelta(st.textId, content));
      }
      assert CheckAll(m, f1) == Some(MonitorOf(s1));
      ChunksStepAccepted(s1.stepOpened, MonitorOf(s1).text, s1.seen, chunks);
      CheckAllAppend(m, f1, ChunksStep(s1.seen, chunks).1);
    case ChatModelEnd(calls) =>
      var (s1, f1) := CloseText(st);
      var (seen, f2) := CallsStep(s1.seen, calls, codec.dumps);
      var f3 := if s1.stepOpened then [FinishStep] else [];
      if f1 != [] {
        CheckOne(m, TextEnd(st.textId));
      }
      assert CheckAll(m, f1) == Some(MonitorOf(s1));
      if s1.stepOpened {
        CheckOne(MonitorOf(s1).(tools := seen), FinishStep);
      }
      CallsStepAccepted(s1.stepOpened, MonitorOf(s1).text, s1.seen, calls, codec.dumps);
      CheckAllAppend(m, f1, f2);
      CheckAllAppend(m, f1 + f2, f3);
    case ToolStart =>
    case ToolEnd(_, _) =>
    case Other(_) =>
  }

  lemma {:induction false} EventsStepAccepted(st: State, evs: seq<Event>, ids: Ids, codec: Codec)
    requires Inv(st)
    ensures Inv(EventsStep(st, evs, ids, codec).0)
    ensures CheckAll(MonitorOf(st), EventsStep(st, evs, ids, codec).1) == Some(MonitorOf(EventsStep(st, evs, ids, codec).0))
    decreases |evs|
  {
    if evs != [] {
      var (s1, f1) := EventsStep(st, evs[..|evs| - 1], ids, codec);
      EventsStepAccepted(st, evs[..|evs| - 1], ids, codec);
      EventStepAccepted(s1, evs[|evs| - 1], ids, codec);
      CheckAllAppend(MonitorOf(st), f1, EventStep(s1, evs[|evs| - 1], ids, codec).1);
    }
  }

  /** The cleanup closes the open text block and the open step, and nothing else. */
  lemma CleanupAccepted(st: State)
    requires Inv(st)
    ensures CheckAll(MonitorOf(st), Cleanup(st)) == Some(Monitor(Streaming, false, None, st.seen))
  {
    var m := MonitorOf(st);
    var a := if st.textBlockOpen && st.textId != "" then [TextEnd(st.textId)] else [];
    var b := if st.stepOpened then [FinishStep] else [];
    CheckAllAppend(m, a, b);
    if a != [] {
      CheckOne(m, TextEnd(st.textId));
    }
    assert CheckAll(m, a) == Some(m.(text := None));
    if b != [] {
      CheckOne(m.(text := None), FinishStep);
    }
  }

  /** The `except` branch, the cleanup, `finish` and `[DONE]` take any stable state to Closed. */
  lemma TailAccepted(st: State, raises: Option<string>)
    requires Inv(st)
    ensures CheckAll(MonitorOf(st), ErrorParts(raises) + Cleanup(st) + [Finish, Done]) == Some(Monitor(Closed, false, None, st.seen))
  {
    var err := ErrorParts(raises);
    var closed := Monitor(Streaming, false, None, st.seen);
    assert CheckAll(MonitorOf(st), err) == Some(MonitorOf(st));
    CleanupAccepted(st);
    CheckAllAppend(MonitorOf(st), err, Cleanup(st));
    CheckPair(closed, Finish, Done);
    CheckAllAppend(MonitorOf(st), err + Cleanup(st), [Finish, Done]);
  }

  /** The monitor accepts the whole output and ends Closed. */
  lemma TranslateAccepted(src: Source, ids: Ids, codec: Codec)
    ensures WellFormed(Translate(src, ids, codec))
  {
    var (st, body) := EventsStep(Init, src.events, ids, codec);
    var head := [Start(MessageId(ids))];
    var tail := ErrorParts(src.raises) + Cleanup(st) + [Finish, Done];
    assert Translate(src, ids, codec) == head + body + tail;
    assert MonitorOf(Init) == Monitor(Streaming, false, None, {});
    assert CheckAll(Initial, head) == Some(MonitorOf(Init));
    EventsStepAccepted(Init, src.events, ids, codec);
    TailAccepted(st, src.raises);
    CheckAllAppend(Initial, head, body);
    CheckAllAppend(Initial, head + body, tail);
  }

  /**
   * The bridge's output is a well-formed UI message stream, whatever the
   * events and whether or not the source raised: it opens with `start` and
   * the message id, closes every step and text block it opens exactly once,
   * never nests them, announces each tool call at most once, and ends with
   * `finish` and `[DONE]`.
   */
  lemma TranslateWellFormed(src: Source, ids: Ids, codec: Codec)
    ensures WellFormed(Translate(src, ids, codec))
    ensures ToolStartsUnique(Translate(src, ids, codec))
    ensures Translate(src, ids, codec)[0] == Start(MessageId(ids))
    ensures var r := Translate(src, ids, codec); r[|r| - 2] == Finish && r[|r| - 1] == Done
  {
    var r := Translate(src, ids, codec);
    TranslateAccepted(src, ids, codec);
    AcceptedToolStartsUnique(Initial, r);
    WellFormedFraming(r);
  }
}
