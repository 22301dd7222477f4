/**
 * The event-to-stream bridge of backend/utils.py (`langchain_to_vercel_stream`)
 * as a pure fold: what each agent event does to the bridge's state and
 * which stream parts it writes. The imperative version in module Bridge is
 * proved to produce exactly `Translate`.
 */
module BridgeSpec {
  import opened Wrappers
  import opened Json
  import opened StreamProtocol

  /** One tool-call argument chunk of a streamed model message; `id` and `name` may be missing. */
  datatype ToolCallChunk = ToolCallChunk(id: Option<string>, name: Option<string>, args: string)

  /** One tool call of the final model message; its arguments are already a dict. */
  datatype ToolCall = ToolCall(id: string, name: string, args: Json)

  /** The content of a tool message: a str, or any other value (json.dumps'ed before use). */
  datatype ToolContent = Str(s: string) | Structured(j: Json)

  /** The agent events the bridge reacts to; `Other` is every event it ignores. */
  datatype Event =
    | ChatModelStart
    | ChatModelStream(content: string, toolCallChunks: seq<ToolCallChunk>)
    | ChatModelEnd(toolCalls: seq<ToolCall>)
    | ToolStart
    | ToolEnd(toolCallId: string, toolContent: ToolContent)
    | Other(name: string)

  /** The event source: the events it yields and, optionally, the message of the exception it then raises. */
  datatype Source = Source(events: seq<Event>, raises: Option<string>)

  /**
   * The values uuid4().hex would return: one for the message id, and the
   * n-th one for the n-th text block the bridge opens.
   */
  datatype Ids = Ids(messageHex: string, textHex: nat -> string)

  /**
   * The bridge's mutable locals. `textId` is "" where the source holds None
   * (both are falsy); `textCount` counts the text ids drawn so far.
   */
  datatype State = State(stepOpened: bool, textId: string, textBlockOpen: bool, seen: set<string>, textCount: nat)

  const Init: State := State(false, "", false, {}, 0)

  function MessageId(ids: Ids): string {
    "msg_" + ids.messageHex
  }

  function TextId(ids: Ids, n: nat): string {
    "text_" + ids.textHex(n)
  }

  // ---------------------------------------------------------------------------
  // on_chat_model_stream

  /** The text part of a streamed chunk: open a block if none is open, then a delta. */
  function StreamText(st: State, content: string, ids: Ids): (State, seq<Part>) {
    if content == "" then (st, [])
    else if !st.textBlockOpen then
      var id := TextId(ids, st.textCount);
      (st.(textId := id, textBlockOpen := true, textCount := st.textCount + 1),
       [TextStart(id), TextDelta(id, content)])
    else (st, [TextDelta(st.textId, content)])
  }

  function NameOr(name: Option<string>): string {
    match name
    case Some(n) => n
    case None => ""
  }

  /** One tool-call chunk: announce a new id once, then stream its argument fragment if non-empty. */
  function ChunkStep(seen: set<string>, c: ToolCallChunk): (set<string>, seq<Part>) {
    if c.id.None? || c.id.value == "" then (seen, [])
    else
      var id := c.id.value;
      var announce := if id !in seen then [ToolInputStart(id, NameOr(c.name))] else [];
      var delta := if c.args != "" then [ToolInputDelta(id, c.args)] else [];
      (seen + {id}, announce + delta)
  }

  function ChunksStep(seen: set<string>, cs: seq<ToolCallChunk>): (set<string>, seq<Part>)
    decreases |cs|
  {
    if cs == [] then (seen, [])
    else
      var (s1, f1) := ChunksStep(seen, cs[..|cs| - 1]);
      var (s2, f2) := ChunkStep(s1, cs[|cs| - 1]);
      (s2, f1 + f2)
  }

  // ---------------------------------------------------------------------------
  // on_chat_model_end

  /** One final tool call: start and full-argument delta if never announced, then the available input. */
  function CallStep(seen: set<string>, c: ToolCall, dumps: Json -> string): (set<string>, seq<Part>) {
    var announce :=
      if c.id !in seen then [ToolInputStart(c.id, c.name), ToolInputDelta(c.id, dumps(c.args))] else [];
    (seen + {c.id}, announce + [ToolInputAvailable(c.id, c.name, c.args)])
  }

  function CallsStep(seen: set<string>, cs: seq<ToolCall>, dumps: Json -> string): (set<string>, seq<Part>)
    decreases |cs|
  {
    if cs == [] then (seen, [])
    else
      var (s1, f1) := CallsStep(seen, cs[..|cs| - 1], dumps);
      var (s2, f2) := CallStep(s1, cs[|cs| - 1], dumps);
      (s2, f1 + f2)
  }

  /** Close the open text block, if any. */
  function CloseText(st: State): (State, seq<Part>) {
    if st.textBlockOpen && st.textId != "" then
      (st.(textBlockOpen := false, textId := ""), [TextEnd(st.textId)])
    else (st, [])
  }

  // ---------------------------------------------------------------------------
  // on_tool_end

  /** The tool message's content as text: a str as it is, anything else through json.dumps. */
  function RawContent(content: ToolContent, dumps: Json -> string): string {
    match content
    case Str(s) => s
    case Structured(j) => dumps(j)
  }

  /** The `output` field: the decoded content when it parses as JSON, else the raw string. */
  function ToolOutput(content: ToolContent, codec: Codec): Json {
    var raw := RawContent(content, codec.dumps);
    match codec.loads(raw)
    case Some(v) => v
    case None => JString(raw)
  }

  // ---------------------------------------------------------------------------
  // The whole bridge

  /** What one event does to the state, and the parts it writes. */
  function EventStep(st: State, ev: Event, ids: Ids, codec: Codec): (State, seq<Part>) {
    match ev
    case ChatModelStart =>
      (st.(stepOpened := true), (if st.stepOpened then [FinishStep] else []) + [StartStep])
    case ChatModelStream(content, chunks) =>
      var (s1, f1) := StreamText(st, content, ids);
      var (seen, f2) := ChunksStep(s1.seen, chunks);
      (s1.(seen := seen), f1 + f2)
    case ChatModelEnd(calls) =>
      var (s1, f1) := CloseText(st);
      var (seen, f2) := CallsStep(s1.seen, calls, codec.dumps);
      var f3 := if s1.stepOpened then [FinishStep] else [];
      (s1.(seen := seen, stepOpened := false), f1 + f2 + f3)
    case ToolStart =>
      if st.stepOpened then (st, []) else (st.(stepOpened := true), [StartStep])
    case ToolEnd(callId, content) =>
      (st, [ToolOutputAvailable(callId, ToolOutput(content, codec))])
    case Other(_) => (st, [])
  }

  function EventsStep(st: State, evs: seq<Event>, ids: Ids, codec: Codec): (State, seq<Part>)
    decreases |evs|
  {
    if evs == [] then (st, [])
    else
      var (s1, f1) := EventsStep(st, evs[..|evs| - 1], ids, codec);
      var (s2, f2) := EventStep(s1, evs[|evs| - 1], ids, codec);
      (s2, f1 + f2)
  }

  /** The error part written when the event source raised. */
  function ErrorParts(raises: Option<string>): seq<Part> {
    match raises
    case Some(text) => [Error(text)]
    case None => []
  }

  /** Close whatever is still open once the events are over. */
  function Cleanup(st: State): seq<Part> {
    (if st.textBlockOpen && st.textId != "" then [TextEnd(st.textId)] else [])
    + (if st.stepOpened then [FinishStep] else [])
  }

  /** Every part the bridge writes for a source, in order. */
  function Translate(src: Source, ids: Ids, codec: Codec): seq<Part> {
    var (st, body) := EventsStep(Init, src.events, ids, codec);
    [Start(MessageId(ids))] + body + ErrorParts(src.raises) + Cleanup(st) + [Finish, Done]
  }
}
