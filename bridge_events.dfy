/**
 * Per-event promises of the bridge in backend/utils.py: what tool-call
 * chunks, the end of a model call and the end of a tool write, and where
 * the error part can appear.
 */
module BridgeEvents {
  import opened Wrappers
  import opened Json
  import opened StreamProtocol
  import opened BridgeSpec
  import opened BridgeLemmas

  // ---------------------------------------------------------------------------
  // Views of a sequence of parts

  /** The argument deltas, in order. */
  function Deltas(ps: seq<Part>): seq<Part>
    decreases |ps|
  {
    if ps == [] then []
    else (if ps[0].ToolInputDelta? then [ps[0]] else []) + Deltas(ps[1..])
  }

  /** The finalised tool inputs, in order. */
  function Availables(ps: seq<Part>): seq<Part>
    decreases |ps|
  {
    if ps == [] then []
    else (if ps[0].ToolInputAvailable? then [ps[0]] else []) + Availables(ps[1..])
  }

  /** The tool-call ids announced by `tool-input-start`. */
  function Announced(ps: seq<Part>): set<string>
    decreases |ps|
  {
    if ps == [] then {}
    else (if ps[0].ToolInputStart? then {ps[0].toolCallId} else {}) + Announced(ps[1..])
  }

  lemma {:induction false} DeltasAppend(a: seq<Part>, b: seq<Part>)
    ensures Deltas(a + b) == Deltas(a) + Deltas(b)
    decreases |a|
  {
    if a == [] {
      assert a + b == b;
    } else {
      var head := if a[0].ToolInputDelta? then [a[0]] else [];
      assert (a + b)[0] == a[0];
      assert (a + b)[1..] == a[1..] + b;
      assert Deltas(a + b) == head + Deltas(a[1..] + b);
      DeltasAppend(a[1..], b);
      assert Deltas(a) == head + Deltas(a[1..]);
    }
  }

  lemma {:induction false} AvailablesAppend(a: seq<Part>, b: seq<Part>)
    ensures Availables(a + b) == Availables(a) + Availables(b)
    decreases |a|
  {
    if a == [] {
      assert a + b == b;
    } else {
      var head := if a[0].ToolInputAvailable? then [a[0]] else [];
      assert (a + b)[0] == a[0];
      assert (a + b)[1..] == a[1..] + b;
      assert Availables(a + b) == head + Availables(a[1..] + b);
      AvailablesAppend(a[1..], b);
      assert Availables(a) == head + Availables(a[1..]);
    }
  }

  lemma {:induction false} AnnouncedAppend(a: seq<Part>, b: seq<Part>)
    ensures Announced(a + b) == Announced(a) + Announced(b)
    decreases |a|
  {
    if a == [] {
      assert a + b == b;
    } else {
      var head := if a[0].ToolInputStart? then {a[0].toolCallId} else {};
      assert (a + b)[0] == a[0];
      assert (a + b)[1..] == a[1..] + b;
      assert Announced(a + b) == head + Announced(a[1..] + b);
      AnnouncedAppend(a[1..], b);
      assert Announced(a) == head + Announced(a[1..]);
    }
  }

  lemma ViewsAppend(a: seq<Part>, b: seq<Part>)
    ensures Deltas(a + b) == Deltas(a) + Deltas(b)
    ensures Availables(a + b) == Availables(a) + Availables(b)
    ensures Announced(a + b) == Announced(a) + Announced(b)
  {
    DeltasAppend(a, b);
    AvailablesAppend(a, b);
    AnnouncedAppend(a, b);
  }

  lemma ViewsOne(p: Part)
    ensures Deltas([p]) == if p.ToolInputDelta? then [p] else []
    ensures Availables([p]) == if p.ToolInputAvailable? then [p] else []
    ensures Announced([p]) == if p.ToolInputStart? then {p.toolCallId} else {}
  {
    assert [p][1..] == [];
  }

  // ---------------------------------------------------------------------------
  // Tool-call chunks of on_chat_model_stream

  /** The ids the chunks carry; a missing or empty id is not an id. */
  function ChunkIds(cs: seq<ToolCallChunk>): set<string>
    decreases |cs|
  {
    if cs == [] then {}
    else
      var c := cs[|cs| - 1];
      ChunkIds(cs[..|cs| - 1]) + (if c.id.Some? && c.id.value != "" then {c.id.value} else {})
  }

  /** One argument delta per chunk that has an id and non-empty arguments, in chunk order. */
  function ExpectedDeltas(cs: seq<ToolCallChunk>): seq<Part>
    decreases |cs|
  {
    if cs == [] then []
    else
      var c := cs[|cs| - 1];
      ExpectedDeltas(cs[..|cs| - 1])
      + (if c.id.Some? && c.id.value != "" && c.args != "" then [ToolInputDelta(c.id.value, c.args)] else [])
  }

  /** The chunks add exactly their ids to the seen set. */
  lemma {:induction false} ChunksStepSeen(seen: set<string>, cs: seq<ToolCallChunk>)
    ensures ChunksStep(seen, cs).0 == seen + ChunkIds(cs)
    decreases |cs|
  {
    if cs != [] {
      ChunksStepSeen(seen, cs[..|cs| - 1]);
    }
  }

  /** A chunk writes tool-input parts only, and only for the id it carries (none when it has none). */
  lemma ChunkStepKinds(seen: set<string>, c: ToolCallChunk)
    ensures forall p :: p in ChunkStep(seen, c).1 ==>
              (p.ToolInputStart? || p.ToolInputDelta?) && c.id == Some(p.toolCallId) && p.toolCallId != ""
  {
  }

  /**
   * The chunks of one streamed message write only tool-input parts, for ids
   * they carry: chunks without an id, or with an empty one, write nothing.
   */
  lemma {:induction false} ChunksStepKinds(seen: set<string>, cs: seq<ToolCallChunk>)
    ensures forall p :: p in ChunksStep(seen, cs).1 ==>
              (p.ToolInputStart? || p.ToolInputDelta?) && p.toolCallId in ChunkIds(cs)
    decreases |cs|
  {
    if cs != [] {
      var init := cs[..|cs| - 1];
      var (s1, f1) := ChunksStep(seen, init);
      ChunksStepKinds(seen, init);
      ChunkStepKinds(s1, cs[|cs| - 1]);
    }
  }

  /** An argument delta is written exactly for each chunk that has an id and non-empty arguments, in order. */
  lemma {:induction false} ChunksStepDeltas(seen: set<string>, cs: seq<ToolCallChunk>)
    ensures Deltas(ChunksStep(seen, cs).1) == ExpectedDeltas(cs)
    decreases |cs|
  {
    if cs != [] {
      var c := cs[|cs| - 1];
      var (s1, f1) := ChunksStep(seen, cs[..|cs| - 1]);
      ChunksStepDeltas(seen, cs[..|cs| - 1]);
      var (s2, f2) := ChunkStep(s1, c);
      ViewsAppend(f1, f2);
      ChunkStepViews(s1, c);
    }
  }

  /** What one chunk contributes to the delta and announcement views. */
  lemma ChunkStepViews(seen: set<string>, c: ToolCallChunk)
    ensures Deltas(ChunkStep(seen, c).1) ==
      if c.id.Some? && c.id.value != "" && c.args != "" then [ToolInputDelta(c.id.value, c.args)] else []
    ensures Announced(ChunkStep(seen, c).1) ==
      if c.id.Some? && c.id.value != "" && c.id.value !in seen then {c.id.value} else {}
  {
    if c.id.Some? && c.id.value != "" {
      var id := c.id.value;
      var announce := if id !in seen then [ToolInputStart(id, NameOr(c.name))] else [];
      var delta := if c.args != "" then [ToolInputDelta(id, c.args)] else [];
      assert ChunkStep(seen, c).1 == announce + delta;
      ViewsAppend(announce, delta);
      if id !in seen { ViewsOne(announce[0]); }
      if c.args != "" { ViewsOne(delta[0]); }
    }
  }

  /** A `tool-input-start` is written exactly for the chunk ids not seen before. */
  lemma {:induction false} ChunksStepAnnounced(seen: set<string>, cs: seq<ToolCallChunk>)
    ensures Announced(ChunksStep(seen, cs).1) == ChunkIds(cs) - seen
    decreases |cs|
  {
    if cs != [] {
      var c := cs[|cs| - 1];
      var (s1, f1) := ChunksStep(seen, cs[..|cs| - 1]);
      ChunksStepAnnounced(seen, cs[..|cs| - 1]);
      ChunksStepSeen(seen, cs[..|cs| - 1]);
      var (s2, f2) := ChunkStep(s1, c);
      ViewsAppend(f1, f2);
      ChunkStepViews(s1, c);
    }
  }

  // ---------------------------------------------------------------------------
  // Final tool calls of on_chat_model_end

  function CallIds(cs: seq<ToolCall>): set<string>
    decreases |cs|
  {
    if cs == [] then {} else CallIds(cs[..|cs| - 1]) + {cs[|cs| - 1].id}
  }

  /** One `tool-input-available` per proposed call, in the model's order. */
  function ExpectedAvailables(cs: seq<ToolCall>): seq<Part> {
    seq(|cs|, i requires 0 <= i < |cs| => ToolInputAvailable(cs[i].id, cs[i].name, cs[i].args))
  }

  lemma {:induction false} CallsStepSeen(seen: set<string>, cs: seq<ToolCall>, dumps: Json -> string)
    ensures CallsStep(seen, cs, dumps).0 == seen + CallIds(cs)
    decreases |cs|
  {
    if cs != [] {
      CallsStepSeen(seen, cs[..|cs| - 1], dumps);
    }
  }

  lemma CallStepViews(seen: set<string>, c: ToolCall, dumps: Json -> string)
    ensures Availables(CallStep(seen, c, dumps).1) == [ToolInputAvailable(c.id, c.name, c.args)]
    ensures Announced(CallStep(seen, c, dumps).1) == if c.id in seen then {} else {c.id}
  {
    var tail := [ToolInputAvailable(c.id, c.name, c.args)];
    var announce := if c.id !in seen then [ToolInputStart(c.id, c.name), ToolInputDelta(c.id, dumps(c.args))] else [];
    ViewsAppend(announce, tail);
    ViewsOne(tail[0]);
    if c.id !in seen {
      ViewsAppend([announce[0]], [announce[1]]);
      assert announce == [announce[0]] + [announce[1]];
      ViewsOne(announce[0]);
      ViewsOne(announce[1]);
    }
  }

  /** One final call writes the JSON delta of its arguments only when its id was never announced. */
  lemma CallStepDelta(seen: set<string>, c: ToolCall, dumps: Json -> string)
    ensures Deltas(CallStep(seen, c, dumps).1) == if c.id in seen then [] else [ToolInputDelta(c.id, dumps(c.args))]
  {
    var tail := [ToolInputAvailable(c.id, c.name, c.args)];
    var announce := if c.id !in seen then [ToolInputStart(c.id, c.name), ToolInputDelta(c.id, dumps(c.args))] else [];
    assert CallStep(seen, c, dumps).1 == announce + tail;
    ViewsAppend(announce, tail);
    ViewsOne(tail[0]);
    if c.id !in seen {
      ViewsAppend([announce[0]], [announce[1]]);
      assert announce == [announce[0]] + [announce[1]];
      ViewsOne(announce[0]);
      ViewsOne(announce[1]);
    }
  }

  /** The final tool calls write `tool-input-available` for every call, in the model's order. */
  lemma {:induction false} CallsStepAvailables(seen: set<string>, cs: seq<ToolCall>, dumps: Json -> string)
    ensures Availables(CallsStep(seen, cs, dumps).1) == ExpectedAvailables(cs)
    decreases |cs|
  {
    if cs != [] {
      var init := cs[..|cs| - 1];
      var c := cs[|cs| - 1];
      var (s1, f1) := CallsStep(seen, init, dumps);
      CallsStepAvailables(seen, init, dumps);
      CallStepViews(s1, c, dumps);
      ViewsAppend(f1, CallStep(s1, c, dumps).1);
      assert ExpectedAvailables(cs) == ExpectedAvailables(init) + [ToolInputAvailable(c.id, c.name, c.args)];
    }
  }

  /** The final tool calls announce exactly the ids never announced before. */
  lemma {:induction false} CallsStepAnnounced(seen: set<string>, cs: seq<ToolCall>, dumps: Json -> string)
    ensures Announced(CallsStep(seen, cs, dumps).1) == CallIds(cs) - seen
    decreases |cs|
  {
    if cs != [] {
      var init := cs[..|cs| - 1];
      var c := cs[|cs| - 1];
      var (s1, f1) := CallsStep(seen, init, dumps);
      CallsStepAnnounced(seen, init, dumps);
      CallsStepSeen(seen, init, dumps);
      CallStepViews(s1, c, dumps);
      ViewsAppend(f1, CallStep(s1, c, dumps).1);
    }
  }

  /**
   * The final tool calls write only tool-input parts, and every argument
   * delta among them is the JSON text of the arguments of a call with that id.
   */
  lemma {:induction false} CallsStepKinds(seen: set<string>, cs: seq<ToolCall>, dumps: Json -> string)
    ensures forall p :: p in CallsStep(seen, cs, dumps).1 ==>
              p.ToolInputStart? || p.ToolInputDelta? || p.ToolInputAvailable?
    ensures forall p :: p in CallsStep(seen, cs, dumps).1 && p.ToolInputDelta? ==>
              exists i :: 0 <= i < |cs| && cs[i].id == p.toolCallId && p.inputTextDelta == dumps(cs[i].args)
    decreases |cs|
  {
    if cs != [] {
      var init := cs[..|cs| - 1];
      var c := cs[|cs| - 1];
      var (s1, f1) := CallsStep(seen, init, dumps);
      CallsStepKinds(seen, init, dumps);
      var f2 := CallStep(s1, c, dumps).1;
      forall p | p in f1 + f2 && p.ToolInputDelta?
        ensures exists i :: 0 <= i < |cs| && cs[i].id == p.toolCallId && p.inputTextDelta == dumps(cs[i].args)
      {
        if p in f1 {
          var i :| 0 <= i < |init| && init[i].id == p.toolCallId && p.inputTextDelta == dumps(init[i].args);
          assert cs[i] == init[i];
        } else {
          assert cs[|cs| - 1] == c;
        }
      }
    }
  }

  /**
   * A final call writes an argument delta only right after announcing the same
   * id, and only for an id never announced before: a call streamed earlier,
   * or a repeat in the same list, gets no second copy of its arguments.
   */
  ghost predicate DeltasFollowStarts(ps: seq<Part>, seen: set<string>) {
    forall k :: 0 <= k < |ps| && ps[k].ToolInputDelta? ==>
      0 < k && ps[k - 1].ToolInputStart? && ps[k - 1].toolCallId == ps[k].toolCallId && ps[k].toolCallId !in seen
  }

  lemma {:induction false} CallsStepDeltasFollowStarts(seen: set<string>, cs: seq<ToolCall>, dumps: Json -> string)
    ensures DeltasFollowStarts(CallsStep(seen, cs, dumps).1, seen)
    decreases |cs|
  {
    if cs != [] {
      var n := |cs| - 1;
      var (s1, f1) := CallsStep(seen, cs[..n], dumps);
      var f2 := CallStep(s1, cs[n], dumps).1;
      var ps := f1 + f2;
      assert CallsStep(seen, cs, dumps).1 == ps;
      CallsStepDeltasFollowStarts(seen, cs[..n], dumps);
      CallsStepSeen(seen, cs[..n], dumps);
      forall k | 0 <= k < |ps| && ps[k].ToolInputDelta?
        ensures 0 < k && ps[k - 1].ToolInputStart? && ps[k - 1].toolCallId == ps[k].toolCallId && ps[k].toolCallId !in seen
      {
        if k < |f1| {
          assert ps[k] == f1[k] && ps[k - 1] == f1[k - 1];
        } else {
          assert ps[k] == f2[k - |f1|];
          assert cs[n].id !in s1 && k == |f1| + 1;
          assert ps[k - 1] == f2[0];
        }
      }
    }
  }

  /** On on_chat_model_end, a `tool-input-delta` is written only right after announcing its id, for ids never seen before. */
  lemma ModelEndDeltasFollowStarts(st: State, calls: seq<ToolCall>, ids: Ids, codec: Codec)
    ensures DeltasFollowStarts(EventStep(st, ChatModelEnd(calls), ids, codec).1, st.seen)
  {
    var (s1, f1) := CloseText(st);
    var (seen, f2) := CallsStep(s1.seen, calls, codec.dumps);
    var f3 := if s1.stepOpened then [FinishStep] else [];
    assert s1.seen == st.seen;
    CallsStepDeltasFollowStarts(s1.seen, calls, codec.dumps);
    var ps := f1 + f2 + f3;
    assert EventStep(st, ChatModelEnd(calls), ids, codec).1 == ps;
    forall k | 0 <= k < |ps| && ps[k].ToolInputDelta?
      ensures 0 < k && ps[k - 1].ToolInputStart? && ps[k - 1].toolCallId == ps[k].toolCallId && ps[k].toolCallId !in st.seen
    {
      assert |f1| <= k < |f1| + |f2|;
      var k2 := k - |f1|;
      assert ps[k] == f2[k2];
      assert 0 < k2 && ps[k - 1] == f2[k2 - 1];
    }
  }

  /** A call whose id is unseen and not shared by an earlier call gets that id's start and its full-argument delta. */
  lemma {:induction false} CallsStepAnnouncesUnseen(seen: set<string>, cs: seq<ToolCall>, dumps: Json -> string)
    ensures forall i :: FirstUnseen(seen, cs, i) ==> exists k :: FinalisedAt(CallsStep(seen, cs, dumps).1, k, cs[i], dumps)
    decreases |cs|
  {
    if cs != [] {
      var n := |cs| - 1;
      var init := cs[..n];
      var (s1, f1) := CallsStep(seen, init, dumps);
      var f2 := CallStep(s1, cs[n], dumps).1;
      assert CallsStep(seen, cs, dumps).1 == f1 + f2;
      CallsStepAnnouncesUnseen(seen, init, dumps);
      CallsStepSeen(seen, init, dumps);
      forall i | FirstUnseen(seen, cs, i)
        ensures exists k :: FinalisedAt(f1 + f2, k, cs[i], dumps)
      {
        if i < n {
          assert init[i] == cs[i];
          assert FirstUnseen(seen, init, i) by {
            assert forall j :: 0 <= j < i ==> init[j] == cs[j];
          }
          var k :| FinalisedAt(f1, k, init[i], dumps);
          FinalisedAtAppend(f1, f2, k, cs[i], dumps);
        } else {
          CallIdsMember(init, cs[n].id);
          assert cs[n].id !in s1;
          assert FinalisedAt(f1 + f2, |f1|, cs[n], dumps);
        }
      }
    }
  }

  /** `cs[i]` is the first call with its id, and that id was never announced. */
  ghost predicate FirstUnseen(seen: set<string>, cs: seq<ToolCall>, i: int) {
    0 <= i < |cs| && cs[i].id !in seen && forall j :: 0 <= j < i ==> cs[j].id != cs[i].id
  }

  /**
   * At `k` the parts hold one final call written in full: its start, the
   * JSON text of its arguments as a delta, and its available input, in a row.
   */
  ghost predicate FinalisedAt(ps: seq<Part>, k: int, c: ToolCall, dumps: Json -> string) {
    && 0 <= k && k + 2 < |ps|
    && ps[k] == ToolInputStart(c.id, c.name)
    && ps[k + 1] == ToolInputDelta(c.id, dumps(c.args))
    && ps[k + 2] == ToolInputAvailable(c.id, c.name, c.args)
  }

  lemma FinalisedAtAppend(a: seq<Part>, b: seq<Part>, k: int, c: ToolCall, dumps: Json -> string)
    requires FinalisedAt(a, k, c, dumps)
    ensures FinalisedAt(a + b, k, c, dumps)
  {
  }

  /** An id is among the calls' ids exactly when some call carries it. */
  lemma {:induction false} CallIdsMember(cs: seq<ToolCall>, id: string)
    ensures id in CallIds(cs) <==> exists j :: 0 <= j < |cs| && cs[j].id == id
    decreases |cs|
  {
    if cs != [] {
      var init := cs[..|cs| - 1];
      CallIdsMember(init, id);
      if exists j :: 0 <= j < |init| && init[j].id == id {
        var j :| 0 <= j < |init| && init[j].id == id;
        assert cs[j] == init[j];
      }
      if exists j :: 0 <= j < |cs| && cs[j].id == id {
        var j :| 0 <= j < |cs| && cs[j].id == id;
        if j < |init| {
          assert init[j] == cs[j];
        }
      }
    }
  }

  /**
   * After on_chat_model_end no text block and no step is open, every proposed
   * tool call is finalised in order, the calls never announced before are
   * announced now, and their ids join the seen set.
   */
  lemma ModelEndCloses(st: State, calls: seq<ToolCall>, ids: Ids, codec: Codec)
    requires Inv(st)
    ensures var (st', ps) := EventStep(st, ChatModelEnd(calls), ids, codec);
      && !st'.stepOpened && !st'.textBlockOpen
      && st'.seen == st.seen + CallIds(calls)
      && Availables(ps) == ExpectedAvailables(calls)
      && Announced(ps) == CallIds(calls) - st.seen
  {
    var (s1, f1) := CloseText(st);
    var (seen, f2) := CallsStep(s1.seen, calls, codec.dumps);
    var f3 := if s1.stepOpened then [FinishStep] else [];
    CallsStepSeen(s1.seen, calls, codec.dumps);
    CallsStepAvailables(s1.seen, calls, codec.dumps);
    CallsStepAnnounced(s1.seen, calls, codec.dumps);
    ViewsAppend(f1, f2);
    ViewsAppend(f1 + f2, f3);
    if f1 != [] { ViewsOne(f1[0]); }
    if f3 != [] { ViewsOne(FinishStep); }
  }

  /**
   * On on_chat_model_end, each proposed call whose id was never announced
   * (the first call with that id) is announced and given one delta holding
   * the JSON text of its whole arguments.
   */
  lemma ModelEndAnnouncesUnseen(st: State, calls: seq<ToolCall>, ids: Ids, codec: Codec)
    ensures var ps := EventStep(st, ChatModelEnd(calls), ids, codec).1;
      forall i :: FirstUnseen(st.seen, calls, i) ==> exists k :: FinalisedAt(ps, k, calls[i], codec.dumps)
  {
    var (s1, f1) := CloseText(st);
    var (seen, f2) := CallsStep(s1.seen, calls, codec.dumps);
    var f3 := if s1.stepOpened then [FinishStep] else [];
    assert s1.seen == st.seen;
    CallsStepAnnouncesUnseen(s1.seen, calls, codec.dumps);
    var ps := f1 + f2 + f3;
    assert EventStep(st, ChatModelEnd(calls), ids, codec).1 == ps;
    forall i | FirstUnseen(st.seen, calls, i)
      ensures exists k :: FinalisedAt(ps, k, calls[i], codec.dumps)
    {
      var k :| FinalisedAt(f2, k, calls[i], codec.dumps);
      assert FinalisedAt(ps, |f1| + k, calls[i], codec.dumps) by {
        assert ps == f1 + (f2 + f3);
      }
    }
  }

  /**
   * A streamed message writes argument deltas exactly for its chunks that
   * have an id and non-empty arguments, and announces only ids not seen before.
   */
  lemma ModelStreamToolParts(st: State, content: string, chunks: seq<ToolCallChunk>, ids: Ids, codec: Codec)
    ensures var (st', ps) := EventStep(st, ChatModelStream(content, chunks), ids, codec);
      && Deltas(ps) == ExpectedDeltas(chunks)
      && Announced(ps) == ChunkIds(chunks) - st.seen
      && st'.seen == st.seen + ChunkIds(chunks)
      && st'.stepOpened == st.stepOpened
  {
    var (s1, f1) := StreamText(st, content, ids);
    var (seen, f2) := ChunksStep(s1.seen, chunks);
    assert EventStep(st, ChatModelStream(content, chunks), ids, codec) == (s1.(seen := seen), f1 + f2);
    assert s1.seen == st.seen;
    ChunksStepSeen(s1.seen, chunks);
    ChunksStepDeltas(s1.seen, chunks);
    ChunksStepAnnounced(s1.seen, chunks);
    StreamTextViews(st, content, ids);
    ViewsAppend(f1, f2);
  }

  /** The text parts of a streamed chunk hold no tool-input part. */
  lemma StreamTextViews(st: State, content: string, ids: Ids)
    ensures Deltas(StreamText(st, content, ids).1) == []
    ensures Announced(StreamText(st, content, ids).1) == {}
  {
    var f1 := StreamText(st, content, ids).1;
    if content != "" {
      if !st.textBlockOpen {
        ViewsAppend([f1[0]], [f1[1]]);
        ViewsOne(f1[0]);
        ViewsOne(f1[1]);
        assert f1 == [f1[0]] + [f1[1]];
      } else {
        ViewsOne(f1[0]);
      }
    }
  }

  /**
   * The text of a streamed chunk: non-empty content opens a block under a
   * fresh text id when none is open and is then written as a delta of the
   * open block; empty content leaves the block as it was. No block is closed.
   */
  lemma ModelStreamText(st: State, content: string, chunks: seq<ToolCallChunk>, ids: Ids, codec: Codec)
    ensures var (st', ps) := EventStep(st, ChatModelStream(content, chunks), ids, codec);
      content != "" ==> st'.textBlockOpen && TextDelta(st'.textId, content) in ps
    ensures var (st', ps) := EventStep(st, ChatModelStream(content, chunks), ids, codec);
      content != "" && st.textBlockOpen ==> st'.textId == st.textId && ps[0] == TextDelta(st.textId, content)
    ensures var (st', ps) := EventStep(st, ChatModelStream(content, chunks), ids, codec);
      content != "" && !st.textBlockOpen ==>
        st'.textId == TextId(ids, st.textCount) && ps[..2] == [TextStart(st'.textId), TextDelta(st'.textId, content)]
    ensures var (st', ps) := EventStep(st, ChatModelStream(content, chunks), ids, codec);
      content == "" ==> st'.textBlockOpen == st.textBlockOpen && st'.textId == st.textId
    ensures var (st', ps) := EventStep(st, ChatModelStream(content, chunks), ids, codec);
      forall p :: p in ps ==> !p.TextEnd? && !p.StartStep? && !p.FinishStep?
  {
    var (s1, f1) := StreamText(st, content, ids);
    var (seen, f2) := ChunksStep(s1.seen, chunks);
    ChunksStepKinds(s1.seen, chunks);
    assert EventStep(st, ChatModelStream(content, chunks), ids, codec).1 == f1 + f2;
    if content != "" {
      assert f1[|f1| - 1] == TextDelta(s1.textId, content);
      assert (f1 + f2)[|f1| - 1] in f1 + f2;
    }
  }

  /**
   * on_chat_model_start closes a step left open (the tool-execution step)
   * and then opens one; nothing else changes.
   */
  lemma ModelStartOpensStep(st: State, ids: Ids, codec: Codec)
    ensures var (st', ps) := EventStep(st, ChatModelStart, ids, codec);
      st' == st.(stepOpened := true) && |ps| == (if st.stepOpened then 2 else 1)
      && ps[|ps| - 1] == StartStep && (st.stepOpened ==> ps[0] == FinishStep)
  {
  }

  /**
   * Tool executions share one step: however many on_tool_start events come
   * in a row, at most one `start-step` is written, and none when a step is
   * already open.
   */
  lemma {:induction false} ToolStartsShareStep(st: State, n: nat, ids: Ids, codec: Codec)
    ensures var (st', ps) := EventsStep(st, seq(n, _ => ToolStart), ids, codec);
      && st' == (if n == 0 then st else st.(stepOpened := true))
      && ps == (if st.stepOpened || n == 0 then [] else [StartStep])
  {
    if n > 0 {
      var evs := seq(n, _ => ToolStart);
      assert evs[..n - 1] == seq(n - 1, _ => ToolStart);
      ToolStartsShareStep(st, n - 1, ids, codec);
    }
  }

  // ---------------------------------------------------------------------------
  // on_tool_end

  /**
   * A finished tool writes exactly one `tool-output-available` for its call id
   * and changes nothing else. The output is the decoded content when it
   * parses and the raw string otherwise; structured content comes back as
   * itself when json.loads reads what json.dumps writes and no object in it
   * repeats a key, as none in a Python dict does.
   */
  lemma ToolEndWritesOutput(st: State, callId: string, content: ToolContent, ids: Ids, codec: Codec)
    ensures var (st', ps) := EventStep(st, ToolEnd(callId, content), ids, codec);
      st' == st && ps == [ToolOutputAvailable(callId, ToolOutput(content, codec))]
    ensures var ps := EventStep(st, ToolEnd(callId, content), ids, codec).1;
      var raw := RawContent(content, codec.dumps);
      && (codec.loads(raw).Some? ==> ps[0].output == codec.loads(raw).value)
      && (codec.loads(raw).None? ==> ps[0].output == JString(raw))
    ensures var ps := EventStep(st, ToolEnd(callId, content), ids, codec).1;
      content.Str? && codec.loads(content.s).None? ==> ps[0].output == JString(content.s)
    ensures var ps := EventStep(st, ToolEnd(callId, content), ids, codec).1;
      RoundTrips(codec) && content.Structured? && DistinctKeys(content.j) ==> ps[0].output == content.j
  {
  }

  // ---------------------------------------------------------------------------
  // The error part

  ghost predicate NoError(ps: seq<Part>) {
    forall i :: 0 <= i < |ps| ==> !ps[i].Error?
  }

  lemma EventStepNoError(st: State, ev: Event, ids: Ids, codec: Codec)
    ensures NoError(EventStep(st, ev, ids, codec).1)
  {
    match ev
    case ChatModelStream(content, chunks) =>
      var (s1, f1) := StreamText(st, content, ids);
      ChunksStepKinds(s1.seen, chunks);
      var f2 := ChunksStep(s1.seen, chunks).1;
      assert EventStep(st, ev, ids, codec).1 == f1 + f2;
      assert forall i :: 0 <= i < |f2| ==> f2[i] in f2;
    case ChatModelEnd(calls) =>
      var (s1, f1) := CloseText(st);
      CallsStepKinds(s1.seen, calls, codec.dumps);
      var f2 := CallsStep(s1.seen, calls, codec.dumps).1;
      var f3 := if s1.stepOpened then [FinishStep] else [];
      assert EventStep(st, ev, ids, codec).1 == f1 + f2 + f3;
      assert forall i :: 0 <= i < |f2| ==> f2[i] in f2;
    case _ =>
  }

  lemma {:induction false} EventsStepNoError(st: State, evs: seq<Event>, ids: Ids, codec: Codec)
    ensures NoError(EventsStep(st, evs, ids, codec).1)
    decreases |evs|
  {
    if evs != [] {
      var (s1, f1) := EventsStep(st, evs[..|evs| - 1], ids, codec);
      EventsStepNoError(st, evs[..|evs| - 1], ids, codec);
      EventStepNoError(s1, evs[|evs| - 1], ids, codec);
    }
  }

  /**
   * An `error` part appears exactly when the event source raised, and it
   * carries the exception's message.
   */
  lemma TranslateErrors(src: Source, ids: Ids, codec: Codec)
    ensures var r := Translate(src, ids, codec);
      (exists i :: 0 <= i < |r| && r[i].Error?) <==> src.raises.Some?
    ensures var r := Translate(src, ids, codec);
      forall i :: 0 <= i < |r| && r[i].Error? ==> src.raises == Some(r[i].errorText)
    ensures var r := Translate(src, ids, codec);
      forall i :: 0 <= i < |r| && r[i].Error? ==> i == 1 + |EventsStep(Init, src.events, ids, codec).1|
  {
    var (st, body) := EventsStep(Init, src.events, ids, codec);
    EventsStepNoError(Init, src.events, ids, codec);
    var r := Translate(src, ids, codec);
    var err := ErrorParts(src.raises);
    var k := 1 + |body|;
    assert r == [Start(MessageId(ids))] + body + err + Cleanup(st) + [Finish, Done];
    forall i | 0 <= i < |r| && r[i].Error?
      ensures src.raises.Some? && i == k && src.raises == Some(r[i].errorText)
    {
    }
    if src.raises.Some? {
      assert r[k] == Error(src.raises.value);
    }
  }
}
