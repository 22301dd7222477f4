# Guest chat backend: stream bridge and thread endpoints, modelled in Dafny

The backend serves a chat agent to anonymous guests. Two pieces of it are modelled here.

## The stream bridge (`backend/utils.py`)

- `sse` wraps one payload in a Server-Sent Event frame: `data: <payload>\n\n`. The payload is a string as is, or a dict or list encoded by `json.dumps`.
- `langchain_to_vercel_stream` turns the agent's event stream (`astream_events`) into the frames of the Vercel AI SDK UI message stream protocol:
  - `start`
  - steps: `start-step` / `finish-step`
  - text blocks: `text-start` / `text-delta` / `text-end`
  - tool input: `tool-input-start` / `tool-input-delta` / `tool-input-available`
  - tool output: `tool-output-available`
  - `error`, `finish`, and the final `[DONE]`

  The bridge is a small state machine. Its state is four mutable locals: the step flag, the text block and its id, and the set of tool-call ids already announced.

## The HTTP endpoints (`backend/app.py`)

- **Guest check.** Every `/api` endpoint first checks the `x-guest-id` header (the health check at `/` does not). The value is an anonymous guest's identity.
- **Thread endpoints.** Listing, creating, renaming and deleting threads read and write the thread-metadata table of `backend/db.py`.
- **Messages endpoint.** It reduces a thread's checkpointed history to its human and AI messages.

## The model

### Frames and the wire (`sse.dfy`, `stream_protocol.dfy`)

- `Sse.Sse` encodes one frame. `Sse.ReadEvents` is an SSE reader: its inverse.
- `StreamProtocol.Part` lists the protocol parts. `PartJson` gives the dict the bridge writes for each part, with the keys in source order.
- JSON encoding and decoding are the two functions of a `Json.Codec` parameter. All the model asks of `json.dumps` is that its output is one line (`Json.SingleLine`). Where the model relies on `json.loads` reading back what `json.dumps` writes, it says so explicitly (`Json.RoundTrips`). That promise covers only values in which no object repeats a key (`Json.DistinctKeys`), which is every value a Python dict can hold.
- `StreamProtocol.Check` is a monitor for the protocol's rules. `WellFormed` means the monitor accepts the whole stream and ends closed:
  - one `start` first;
  - steps never nest;
  - at most one text block is open, and deltas and ends name it;
  - a tool call's input parts follow its one `tool-input-start`;
  - nothing is open at `finish`;
  - `[DONE]` comes last.

### The bridge (`bridge_spec.dfy`, `bridge.dfy`)

- `BridgeSpec` defines the bridge's step on each kind of event as a function of the state (`EventStep`), and the whole output (`Translate`).
- `Bridge.LangchainToVercelStream` is the bridge as the source writes it: a loop over the events, with the same locals. It is proved equal to `Translate`.
- `BridgeLemmas` proves `Translate` well-formed and free of duplicate announcements, for every event sequence.
- `BridgeEvents` proves what each event writes.

### Threads and messages (`guest.dfy`, `threads.dfy`, `messages.dfy`)

- **The table.** `Threads.ThreadStore` holds it as a map from thread id to row. The writing endpoints are methods of that class.
- **Listing.** `Threads.ListThreads` is the listing query. It is specified by `Threads.IsListing`: exactly the caller's rows, each once, newest first.
- **Messages.** `Messages.GetMessages` is the history loop, proved equal to `Messages.HistoryView`.

### Inputs passed in as parameters

- Both uuid draws: the message id's hex, and the hex for each text block id by draw count.
- `uuid4()` of a new thread.
- The clock readings for `created_at` and `updated_at`.
- The thread's checkpointed state.
- The JSON codec.

### What the messages endpoint answers

The messages endpoint answers only human messages (type "human") and AI messages (type "ai"); every other kind of stored message is dropped. A message's content is a string or a list of content blocks, and the model keeps both.

## Model

| member | source | states |
|---|---|---|
| Sse.Sse | backend/utils.py:8-12 | a frame is `data: `, then the payload text (the string itself, or the `json.dumps` text of any other value), then a blank line |
| Sse.LineLength | backend/utils.py:8-12 | the length of the first line: no newline before it, and a newline at it unless the text ends first |
| Sse.ReadEvents | backend/utils.py:8-12 | the reader that is the partner of `sse`: it splits a body made only of `data: ` lines, each ended by a blank line, into their texts, and answers None for a body of any other shape |
| Sse.ReadFrame | backend/utils.py:8-12 | reading a frame `data: <payload>\n\n` followed by more text yields the payload, then the events of the rest, when the payload has no newline |
| Sse.ReadBody | backend/utils.py:8-12 | an SSE reader recovers exactly the payload texts, in order, from any concatenation of frames whose payloads are single lines |
| Sse.ReadBodyOfJson | backend/utils.py:8-12 | the same for frames of dicts encoded by a JSON encoder that writes one line, and of newline-free strings |
| StreamProtocol.PartJson | backend/utils.py:41-186 | every part other than `[DONE]` is a dict whose first key is `"type"` with a string value; the other keys follow in the order the bridge writes them |
| StreamProtocol.PartJsonInjective | backend/utils.py:41-186 | no two parts are written as the same dict, so the type tag and the keys determine the part and all its fields |
| StreamProtocol.WireReadable | backend/utils.py:41-187 | every stream of parts, encoded as the bridge encodes them, reads back as the sequence of their JSON texts with the literal `[DONE]` for the last one |
| StreamProtocol.Check | backend/utils.py:41-187 | the protocol monitor, written independently of the bridge: `start` once and first, steps and text blocks never nested and closed by their own end part, a text delta only for the open block, a tool-input start once per id and its delta and available only after it, `finish` with nothing open, then only `[DONE]` |
| StreamProtocol.WellFormed | backend/utils.py:41-187 | a whole stream is well formed when the monitor accepts every part from its initial state and ends closed, after `[DONE]` |
| StreamProtocol.CheckAllAppend | backend/utils.py:17-187 | the protocol monitor reads `a + b` by reading `a`, then `b` from where `a` left it |
| StreamProtocol.CheckKeepsTools | backend/utils.py:86-92 | the monitor never forgets an announced tool-call id |
| StreamProtocol.AcceptedToolStartsUnique | backend/utils.py:86-92 | any stream the monitor accepts announces each tool-call id at most once |
| StreamProtocol.WellFormedFraming | backend/utils.py:41 | a well-formed stream begins with `start` and ends with `finish` then `[DONE]` |
| StreamProtocol.ClosedEnds | backend/utils.py:186-187 | a stream the monitor takes from streaming to closed ends with `finish` followed by `[DONE]` |
| StreamProtocol.ClosedAcceptsNothing | backend/utils.py:187 | after `[DONE]` the monitor accepts no further part |
| BridgeSpec.EventStep | backend/utils.py:44-172 | the reference definition of one event: per branch of the event loop, the new values of the locals and the parts written |
| BridgeSpec.EventsStep | backend/utils.py:44-172 | the reference fold of `EventStep` over the events, in order, from a given state |
| BridgeSpec.Translate | backend/utils.py:17-187 | everything the bridge writes: `start` with the message id, the events' parts, the `error` part when the source raised, the cleanup of what is still open, then `finish` and `[DONE]` |
| BridgeLemmas.ChunkStepAccepted | backend/utils.py:75-100 | one tool-call chunk's parts are accepted by the monitor and add the chunk's id to the announced set |
| BridgeLemmas.ChunksStepAccepted | backend/utils.py:75-100 | all chunks of a streamed message are accepted and leave the monitor at the new seen set |
| BridgeLemmas.CallStepAccepted | backend/utils.py:113-139 | one final tool call's parts are accepted, whether or not it was announced while streaming |
| BridgeLemmas.CallsStepAccepted | backend/utils.py:113-139 | all final tool calls of a model call are accepted and leave the monitor at the new seen set |
| BridgeLemmas.EventStepAccepted | backend/utils.py:44-172 | from any consistent state (text block open exactly when it has an id), the parts one event writes are accepted and lead to the monitor of the new state, which is consistent again |
| BridgeLemmas.EventsStepAccepted | backend/utils.py:44-172 | the same for any sequence of events |
| BridgeLemmas.CleanupAccepted | backend/utils.py:179-183 | the cleanup closes the open text block and the open step and leaves nothing open |
| BridgeLemmas.TailAccepted | backend/utils.py:176-187 | the optional error part, the cleanup, `finish` and `[DONE]` take any consistent state to the closed monitor |
| BridgeLemmas.TranslateAccepted | backend/utils.py:17-187 | the monitor accepts the bridge's whole output and ends closed |
| BridgeLemmas.TranslateWellFormed | backend/utils.py:17-187 | for every event sequence, raising or not, the output is well-formed, announces no tool call twice, starts with `start` carrying `msg_` and the hex, and ends with `finish`, `[DONE]` |
| Bridge.LangchainToVercelStream | backend/utils.py:17-187 | the loop over the events with the bridge's mutable locals writes exactly `Translate`, hence a well-formed stream with the framing above |
| Bridge.PumpEvents | backend/utils.py:44-172 | the `async for` loop over the events, from the initial locals, writes exactly what `EventsStep` says and leaves the locals it gives |
| Bridge.CloseStream | backend/utils.py:176-187 | after the loop: the error part when the source raised, then the cleanup, `finish`, `[DONE]` |
| Bridge.OnEvent | backend/utils.py:45-172 | one pass of the event loop updates the locals and writes the parts exactly as `EventStep` says |
| Bridge.StreamToolCallChunks | backend/utils.py:75-100 | the chunk loop writes exactly what `ChunksStep` says, and grows the seen set as it does |
| Bridge.FinaliseToolCalls | backend/utils.py:113-139 | the final-tool-call loop writes exactly what `CallsStep` says, and grows the seen set as it does |
| BridgeEvents.DeltasAppend | backend/utils.py:94-100 | the argument deltas of `a + b` are those of `a` followed by those of `b` |
| BridgeEvents.AvailablesAppend | backend/utils.py:134-139 | the finalised inputs of `a + b` are those of `a` followed by those of `b` |
| BridgeEvents.AnnouncedAppend | backend/utils.py:85-92 | the ids announced in `a + b` are those of `a` together with those of `b` |
| BridgeEvents.ViewsAppend | backend/utils.py:85-139 | the three tool-part views distribute over concatenation |
| BridgeEvents.ViewsOne | backend/utils.py:85-139 | what each view takes from a single part |
| BridgeEvents.ChunksStepSeen | backend/utils.py:82-87 | the chunks add exactly the ids they carry to the seen set; a missing or empty id adds nothing |
| BridgeEvents.ChunkStepKinds | backend/utils.py:76-100 | one chunk writes only tool-input start and delta parts, all for its own id, and nothing without an id |
| BridgeEvents.ChunksStepKinds | backend/utils.py:75-100 | all chunks write only tool-input start and delta parts, all for ids the chunks carry |
| BridgeEvents.ChunkStepViews | backend/utils.py:82-100 | one chunk writes an argument delta exactly when it has a non-empty id and non-empty arguments, and announces its id exactly when that id is non-empty and unseen |
| BridgeEvents.ChunksStepDeltas | backend/utils.py:94-100 | one argument delta per chunk with an id and non-empty arguments, carrying those arguments, in chunk order |
| BridgeEvents.ChunksStepAnnounced | backend/utils.py:85-92 | `tool-input-start` exactly for the chunk ids not seen before |
| BridgeEvents.CallsStepSeen | backend/utils.py:121-122 | the final calls add exactly their ids to the seen set |
| BridgeEvents.CallStepViews | backend/utils.py:121-139 | one final call writes exactly one `tool-input-available` with its id, name and input, and announces its id if and only if it was unseen |
| BridgeEvents.CallStepDelta | backend/utils.py:121-132 | one final call writes the `json.dumps` text of its arguments as a delta only when its id was unseen; an id already announced gets no delta |
| BridgeEvents.CallsStepDeltasFollowStarts | backend/utils.py:113-132 | in the final-call loop every delta comes right after the `tool-input-start` of the same id, and only for an id unseen before the loop |
| BridgeEvents.CallsStepAvailables | backend/utils.py:113-139 | one `tool-input-available` per proposed call, in the model's order |
| BridgeEvents.CallsStepAnnounced | backend/utils.py:121-127 | the final calls announce exactly the ids not announced before |
| BridgeEvents.CallsStepKinds | backend/utils.py:113-139 | the final calls write only tool-input parts, and every delta among them is the JSON text of the arguments of a call with that id |
| BridgeEvents.ModelEndCloses | backend/utils.py:103-143 | after a model call ends, no text block and no step is open, the calls' ids are seen, every call is finalised in order and exactly the unseen ids are announced |
| BridgeEvents.ModelStreamToolParts | backend/utils.py:57-100 | a streamed chunk writes argument deltas exactly for its tool-call chunks with an id and arguments, and announces only ids not seen before |
| BridgeEvents.ModelEndDeltasFollowStarts | backend/utils.py:103-143 | at model end every delta comes right after the `tool-input-start` of the same id, for an id never announced, so a call streamed earlier gets no second copy of its arguments |
| BridgeEvents.StreamTextViews | backend/utils.py:63-72 | the text parts of a streamed chunk carry no argument delta and announce no tool call |
| BridgeEvents.ModelStreamText | backend/utils.py:63-72 | non-empty content opens a block under a fresh `text_` id only when none is open, and is written as a delta of the open block; empty content leaves the block as it was; a streamed chunk never closes a block or touches a step |
| BridgeEvents.ModelStartOpensStep | backend/utils.py:48-54 | a model start closes a step left open, then opens one; nothing else changes |
| BridgeEvents.ToolStartsShareStep | backend/utils.py:146-151 | any run of tool starts writes at most one `start-step`, none when a step is open, and leaves a step open |
| BridgeEvents.ModelEndAnnouncesUnseen | backend/utils.py:113-139 | at model end, each call that is the first with an id never announced is written in full, in three consecutive parts: a `tool-input-start` with its name, a `tool-input-delta` with the JSON text of its arguments, and its `tool-input-available` |
| BridgeEvents.CallsStepAnnouncesUnseen | backend/utils.py:113-139 | the same three consecutive parts, for the final-call loop on its own |
| BridgeEvents.CallIdsMember | backend/utils.py:113-122 | an id is among the final calls' ids exactly when some call carries it |
| BridgeEvents.ToolEndWritesOutput | backend/utils.py:154-172 | a finished tool writes exactly one `tool-output-available` for its call id and changes no state; its `output` is the decoded content when the content parses and the raw content string when it does not; a string that does not parse is passed through as itself; structured content with no repeated object key comes back as itself under a codec whose decoder reads what its encoder writes |
| BridgeEvents.EventStepNoError | backend/utils.py:44-172 | no event writes an `error` part |
| BridgeEvents.EventsStepNoError | backend/utils.py:44-172 | no sequence of events writes an `error` part |
| BridgeEvents.TranslateErrors | backend/utils.py:176-183 | the output holds an `error` part if and only if the event source raised; there is then exactly one, carrying the exception's message, placed right after the events' parts and so before the cleanup |
| Guest.RequireGuestId | backend/app.py:53-56 | the guest id is accepted if and only if the header is present and non-empty, and is then returned unchanged; empty gives 400 "x-guest-id header invalid", absent gives 422 |
| Threads.NewestExists | backend/app.py:68 | every non-empty set of rows has a newest one |
| Threads.ListingCons | backend/app.py:68-76 | the newest of the caller's rows followed by a listing of the others is a listing of them all |
| Threads.ListThreads | backend/app.py:66-76 | exactly the caller's rows, each once and projected to id, title and creation time, with creation time never increasing along the list |
| Threads.GetThreads | backend/app.py:66-76 | a guest-header error is passed through; otherwise the answer is a listing of the caller's threads |
| Threads.ThreadStore.constructor | backend/db.py:6-13 | the table starts empty |
| Threads.ThreadStore.CreateThread | backend/app.py:78-84 | on a valid header, one row is inserted under the fresh id, with the caller as guest, the query as title and the two timestamps, and the id is returned; nothing else changes; a taken id fails the commit and changes nothing |
| Threads.ThreadStore.RenameThread | backend/app.py:86-94 | an unknown id gives 404 "Thread not found" and changes nothing; otherwise only that row's title changes, whoever owns it |
| Threads.ThreadStore.DeleteThread | backend/app.py:96-102 | on a valid header, the row is removed if present and the answer is ok either way; nothing else changes |
| Threads.DeleteTwice | backend/app.py:96-102 | deleting twice leaves the table as deleting once does, and both calls answer ok |
| Threads.CreateShowsThread | backend/app.py:66-84 | a created thread appears once in its creator's listing with the query as title, making it one longer; other guests' thread sets are unchanged and their listings never show it |
| Threads.DeleteHidesThread | backend/app.py:96-102 | after a delete the thread is in nobody's listing, and each guest keeps every other thread |
| Threads.RenameShowsTitle | backend/app.py:86-94 | a rename changes no guest's set of threads, and the owner's listing shows the new title with the old creation time |
| Messages.GetMessages | backend/app.py:104-114 | after the guest check, the history loop answers exactly `HistoryView` of the stored messages, or nothing when the thread has none |
| Messages.HistoryView | backend/app.py:108-113 | the reference answer for a history: each human message as type "human", each AI message as type "ai", with content and id, in history order; every other message contributes nothing |
| Messages.HistoryViewAppend | backend/app.py:108-113 | the answer for a concatenated history is the concatenation of the answers, so the history's order is kept |
| Messages.HistoryViewFromHistory | backend/app.py:108-113 | every answered message is a human or AI message of the history, with type "human" or "ai", its content and its id; the answer is never longer than the history |
| Messages.HistoryViewKeepsChat | backend/app.py:108-113 | a history of only human and AI messages comes back whole, position by position |
| Messages.HistoryViewDropsOthers | backend/app.py:108-113 | a tool or system message anywhere in the history leaves no trace in the answer |

## Left out

- Asynchrony. The event source is a finite list. The generator's suspension, and a client abandoning the stream part-way, are not modelled.
- Exceptions raised part-way through an event. `Source.raises` puts the exception after the last complete event. The loop stops there in the source too, so the parts of a half-finished event do not occur in the model.
- Duck typing of chunks and messages (dict versus attribute access, `getattr` defaults). The chunk, call and tool-message fields are typed in the model. Event kinds the bridge ignores are `Other`.
- Which errors the event loop can raise. Every error inside the loop is caught by its `except`, which writes the `error` part and continues with the cleanup. The model does not derive these errors from the events. A `KeyError` on a missing `event` or `data` key comes before the event writes anything, so it is the `Source.raises` case. A `KeyError` on a tool call or a `TypeError` from `json.dumps` can come part-way through an event, and falls under the half-finished-event line above.
- List-valued message content in the bridge. `content` of a streamed chunk is a string, and a missing or `None` value is the empty string.
- List-valued `query` in `POST /api/threads` and in the chat endpoint. The title is a string.
- JSON text itself. The codec is a parameter, and `Json` has integer numbers only.
- `created_at` as a `datetime` and its `isoformat()` text. Timestamps are integers.
- The listing order for rows with the same `created_at`, which SQL leaves open. `ListThreads` picks one; `IsListing` allows every order.
- uuid and clock. They are parameters, as listed above.
- The SQL engine, sessions and commits, beyond the commit failure for a taken primary key.
- `agent.checkpointer.adelete_thread` in `DELETE /api/threads/{thread_id}`. It is called without `await`, and the checkpoint store is not part of this model.
- `agent.aget_state` in the messages endpoint. The stored messages are a parameter.
- The shape of FastAPI's 422 error body. The model keeps its status and the "Field required" message, not the body's list structure.
- The chat endpoint and `StreamingResponse`. The bridge is modelled; the response wrapper, the headers and the agent graph are not part of this model.
- The health check.
- The frontend.
