/**
 * The parts of the Vercel AI SDK "UI message stream" that the bridge of
 * backend/utils.py writes, their JSON form, and the rules a well-formed
 * stream keeps, stated as a monitor that reads the parts one by one.
 */
module StreamProtocol {
  import opened Wrappers
  import opened Json
  import Sse

  /** One part of the UI message stream: the dict (or the "[DONE]" string) handed to `sse`. */
  datatype Part =
    | Start(messageId: string)
    | StartStep
    | FinishStep
    | TextStart(id: string)
    | TextDelta(id: string, delta: string)
    | TextEnd(id: string)
    | ToolInputStart(toolCallId: string, toolName: string)
    | ToolInputDelta(toolCallId: string, inputTextDelta: string)
    | ToolInputAvailable(toolCallId: string, toolName: string, input: Json)
    | ToolOutputAvailable(toolCallId: string, output: Json)
    | Error(errorText: string)
    | Finish
    | Done

  function Tagged(tag: string, members: seq<(string, Json)>): Json {
    JObject([("type", JString(tag))] + members)
  }

  /** The dict the bridge builds for each part, with the keys in the order it writes them; `[DONE]` is a plain string, not a dict. */
  function PartJson(p: Part): (r: Json)
    requires !p.Done?
    ensures r.JObject? && r.members != [] && r.members[0].0 == "type" && r.members[0].1.JString?
  {
    match p
    case Start(id) => Tagged("start", [("messageId", JString(id))])
    case StartStep => Tagged("start-step", [])
    case FinishStep => Tagged("finish-step", [])
    case TextStart(id) => Tagged("text-start", [("id", JString(id))])
    case TextDelta(id, delta) => Tagged("text-delta", [("id", JString(id)), ("delta", JString(delta))])
    case TextEnd(id) => Tagged("text-end", [("id", JString(id))])
    case ToolInputStart(callId, name) =>
      Tagged("tool-input-start", [("toolCallId", JString(callId)), ("toolName", JString(name))])
    case ToolInputDelta(callId, delta) =>
      Tagged("tool-input-delta", [("toolCallId", JString(callId)), ("inputTextDelta", JString(delta))])
    case ToolInputAvailable(callId, name, input) =>
      Tagged("tool-input-available", [("toolCallId", JString(callId)), ("toolName", JString(name)), ("input", input)])
    case ToolOutputAvailable(callId, output) =>
      Tagged("tool-output-available", [("toolCallId", JString(callId)), ("output", output)])
    case Error(text) => Tagged("error", [("errorText", JString(text))])
    case Finish => Tagged("finish", [])
  }

  /** No two parts share a dict: a client can tell every part, and all its fields, from what it reads. */
  lemma PartJsonInjective(p: Part, q: Part)
    requires !p.Done? && !q.Done? && PartJson(p) == PartJson(q)
    ensures p == q
  {
    var m := PartJson(q).members;
    assert PartJson(p).members == m;
    match q {
      case Start(_) =>
        assert p.Start? && m[1].1 == JString(p.messageId);
      case StartStep =>
        assert p.StartStep?;
      case FinishStep =>
        assert p.FinishStep?;
      case TextStart(_) =>
        assert p.TextStart? && m[1].1 == JString(p.id);
      case TextDelta(_, _) =>
        assert p.TextDelta? && m[1].1 == JString(p.id) && m[2].1 == JString(p.delta);
      case TextEnd(_) =>
        assert p.TextEnd? && m[1].1 == JString(p.id);
      case ToolInputStart(_, _) =>
        assert p.ToolInputStart? && m[1].1 == JString(p.toolCallId) && m[2].1 == JString(p.toolName);
      case ToolInputDelta(_, _) =>
        assert m[0].1.s[11] == 'd';
        assert p.ToolInputDelta? && m[1].1 == JString(p.toolCallId) && m[2].1 == JString(p.inputTextDelta);
      case ToolInputAvailable(_, _, _) =>
        assert p.ToolInputAvailable?;
        assert m[1].1 == JString(p.toolCallId) && m[2].1 == JString(p.toolName) && m[3].1 == p.input;
      case ToolOutputAvailable(_, _) =>
        assert p.ToolOutputAvailable? && m[1].1 == JString(p.toolCallId) && m[2].1 == p.output;
      case Error(_) =>
        assert p.Error? && m[1].1 == JString(p.errorText);
      case Finish =>
        assert p.Finish?;
    }
  }

  /** The argument passed to `sse`: the literal string "[DONE]" for Done, the dict otherwise. */
  function PartPayload(p: Part): Sse.Payload {
    if p.Done? then Sse.Text("[DONE]") else Sse.Value(PartJson(p))
  }

  function Payloads(ps: seq<Part>): seq<Sse.Payload> {
    seq(|ps|, i requires 0 <= i < |ps| => PartPayload(ps[i]))
  }

  /** The HTTP response body the bridge produces for a sequence of parts. */
  function Wire(ps: seq<Part>, dumps: Json -> string): string {
    Sse.Body(Payloads(ps), dumps)
  }

  /** Whatever the parts, a client's SSE reader gets back one payload per part, in order. */
  lemma WireReadable(ps: seq<Part>, dumps: Json -> string)
    requires SingleLine(dumps)
    ensures Sse.ReadEvents(Wire(ps, dumps)) == Some(Sse.Texts(Payloads(ps), dumps))
  {
    var frames := Payloads(ps);
    forall i | 0 <= i < |frames| && frames[i].Text?
      ensures '\n' !in frames[i].s
    {
      assert frames[i] == Sse.Text("[DONE]");
    }
    Sse.ReadBodyOfJson(frames, dumps);
  }

  // ---------------------------------------------------------------------------
  // The protocol rules

  /** Idle: nothing written; Streaming: after `start`; Finished: after `finish`; Closed: after `[DONE]`. */
  datatype Phase = Idle | Streaming | Finished | Closed

  /**
   * What a reader of the stream knows: the phase, whether a step is open,
   * the id of the open text block (if any) and the tool calls announced so far.
   */
  datatype Monitor = Monitor(phase: Phase, step: bool, text: Option<string>, tools: set<string>)

  const Initial: Monitor := Monitor(Idle, false, None, {})

  /**
   * Reads one part; None when the part breaks a rule:
   * `start` comes first and once; `finish` only with no step and no text
   * block open; `[DONE]` right after `finish`; steps do not nest; a text
   * block opens only when none is open, and deltas and the end carry the
   * open block's id; a tool call is announced at most once, and its input
   * is streamed and finalised only after it was announced.
   */
  function Check(m: Monitor, p: Part): Option<Monitor> {
    match p
    case Start(_) => if m.phase == Idle then Some(m.(phase := Streaming)) else None
    case Finish =>
      if m.phase == Streaming && !m.step && m.text.None? then Some(m.(phase := Finished)) else None
    case Done => if m.phase == Finished then Some(m.(phase := Closed)) else None
    case StartStep => if m.phase == Streaming && !m.step then Some(m.(step := true)) else None
    case FinishStep => if m.phase == Streaming && m.step then Some(m.(step := false)) else None
    case TextStart(id) => if m.phase == Streaming && m.text.None? then Some(m.(text := Some(id))) else None
    case TextDelta(id, _) => if m.phase == Streaming && m.text == Some(id) then Some(m) else None
    case TextEnd(id) => if m.phase == Streaming && m.text == Some(id) then Some(m.(text := None)) else None
    case ToolInputStart(id, _) =>
      if m.phase == Streaming && id !in m.tools then Some(m.(tools := m.tools + {id})) else None
    case ToolInputDelta(id, _) => if m.phase == Streaming && id in m.tools then Some(m) else None
    case ToolInputAvailable(id, _, _) => if m.phase == Streaming && id in m.tools then Some(m) else None
    case ToolOutputAvailable(_, _) => if m.phase == Streaming then Some(m) else None
    case Error(_) => if m.phase == Streaming then Some(m) else None
  }

  /** Reads a sequence of parts from monitor state `m`. */
  function CheckAll(m: Monitor, ps: seq<Part>): Option<Monitor>
    decreases |ps|
  {
    if ps == [] then Some(m)
    else match Check(m, ps[0])
      case None => None
      case Some(m') => CheckAll(m', ps[1..])
  }

  function Then(o: Option<Monitor>, ps: seq<Part>): Option<Monitor> {
    match o
    case None => None
    case Some(m) => CheckAll(m, ps)
  }

  /** A complete, well-formed stream: every rule holds and it ends with `[DONE]`. */
  ghost predicate WellFormed(ps: seq<Part>) {
    var end := CheckAll(Initial, ps);
    end.Some? && end.value.phase == Closed
  }

  /** No tool-call id is announced twice. */
  ghost predicate ToolStartsUnique(ps: seq<Part>) {
    forall i, j :: 0 <= i < j < |ps| && ps[i].ToolInputStart? && ps[j].ToolInputStart? ==>
      ps[i].toolCallId != ps[j].toolCallId
  }

  /** Reading `a + b` is reading `a` and then `b` from where `a` left the monitor. */
  lemma {:induction false} CheckAllAppend(m: Monitor, a: seq<Part>, b: seq<Part>)
    ensures CheckAll(m, a + b) == Then(CheckAll(m, a), b)
    decreases |a|
  {
    if a == [] {
      assert a + b == b;
    } else {
      assert (a + b)[0] == a[0];
      assert (a + b)[1..] == a[1..] + b;
      match Check(m, a[0])
      case None =>
      case Some(m') => CheckAllAppend(m', a[1..], b);
    }
  }

  /** Announced tool calls are never forgotten. */
  lemma CheckKeepsTools(m: Monitor, p: Part)
    requires Check(m, p).Some?
    ensures m.tools <= Check(m, p).value.tools
  {
  }

  /**
   * Whatever the monitor accepts announces each tool call at most once,
   * and never one it had already seen announced.
   */
  lemma {:induction false} AcceptedToolStartsUnique(m: Monitor, ps: seq<Part>)
    requires CheckAll(m, ps).Some?
    ensures ToolStartsUnique(ps)
    ensures forall i :: 0 <= i < |ps| && ps[i].ToolInputStart? ==> ps[i].toolCallId !in m.tools
    decreases |ps|
  {
    if ps != [] {
      var m' := Check(m, ps[0]).value;
      CheckKeepsTools(m, ps[0]);
      AcceptedToolStartsUnique(m', ps[1..]);
      assert forall i :: 1 <= i < |ps| ==> ps[i] == ps[1..][i - 1];
      if ps[0].ToolInputStart? {
        assert ps[0].toolCallId in m'.tools;
      }
    }
  }

  /** A well-formed stream opens with `start`, and its last two parts are `finish` and `[DONE]`. */
  lemma WellFormedFraming(ps: seq<Part>)
    requires WellFormed(ps)
    ensures |ps| >= 2 && ps[0].Start? && ps[|ps| - 2] == Finish && ps[|ps| - 1] == Done
  {
    assert ps != [];
    assert ps[0].Start?;
    ClosedEnds(Check(Initial, ps[0]).value, ps[1..]);
  }

  lemma {:induction false} ClosedEnds(m: Monitor, ps: seq<Part>)
    requires m.phase == Streaming
    requires CheckAll(m, ps).Some? && CheckAll(m, ps).value.phase == Closed
    ensures |ps| >= 2 && ps[|ps| - 2] == Finish && ps[|ps| - 1] == Done
    decreases |ps|
  {
    var m' := Check(m, ps[0]).value;
    if m'.phase == Streaming {
      ClosedEnds(m', ps[1..]);
    } else {
      assert ps[0] == Finish && m'.phase == Finished;
      var rest := ps[1..];
      assert rest != [] && rest[0] == Done;
      var closed := Check(m', rest[0]).value;
      assert |rest| == 1 by {
        if |rest| > 1 {
          ClosedAcceptsNothing(closed, rest[1..]);
          assert false;
        }
      }
    }
  }

  lemma ClosedAcceptsNothing(m: Monitor, ps: seq<Part>)
    requires m.phase == Closed && ps != []
    ensures CheckAll(m, ps).None?
  {
  }
}
