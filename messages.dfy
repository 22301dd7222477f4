/**
 * GET /api/threads/{thread_id}/messages of backend/app.py: the thread's
 * checkpointed history, reduced to the human and AI messages.
 */
module Messages {
  import opened Wrappers
  import opened Json
  import opened Guest

  /** A message's content: a string or a list of content blocks. */
  datatype Content = Text(s: string) | Blocks(blocks: seq<Json>)

  /** The message classes a checkpointed history can hold. */
  datatype StoredMessage =
    | HumanMessage(content: Content, id: Option<string>)
    | AIMessage(content: Content, id: Option<string>)
    | ToolMessage(content: Content, id: Option<string>, toolCallId: string)
    | SystemMessage(content: Content, id: Option<string>)

  /** The response's Message model: its `type` field is `kind` here. */
  datatype Message = Message(kind: string, content: Content, id: Option<string>)

  predicate IsChat(m: StoredMessage) {
    m.HumanMessage? || m.AIMessage?
  }

  /** What one stored message contributes to the response. */
  function ViewOf(m: StoredMessage): seq<Message> {
    match m
    case HumanMessage(content, id) => [Message("human", content, id)]
    case AIMessage(content, id) => [Message("ai", content, id)]
    case _ => []
  }

  /** The response for a history, one message after another. */
  function HistoryView(h: seq<StoredMessage>): seq<Message> {
    if h == [] then [] else HistoryView(h[..|h| - 1]) + ViewOf(h[|h| - 1])
  }

  /**
   * The endpoint after the guest-header check. `stored` is the "messages" entry
   * of the thread's state values, absent for a thread with no checkpoint.
   */
  method GetMessages(header: Option<string>, stored: Option<seq<StoredMessage>>) returns (r: Result<seq<Message>, HttpError>)
    ensures RequireGuestId(header).Err? ==> r == Err(RequireGuestId(header).error)
    ensures RequireGuestId(header).Ok? && stored.None? ==> r == Ok([])
    ensures RequireGuestId(header).Ok? && stored.Some? ==> r == Ok(HistoryView(stored.value))
  {
    var guest := RequireGuestId(header);
    if guest.Err? {
      return Err(guest.error);
    }
    var history := if stored.Some? then stored.value else [];
    var messages: seq<Message> := [];
    var i := 0;
    while i < |history|
      invariant 0 <= i <= |history|
      invariant messages == HistoryView(history[..i])
    {
      var msg := history[i];
      if msg.HumanMessage? {
        messages := messages + [Message("human", msg.content, msg.id)];
      } else if msg.AIMessage? {
        messages := messages + [Message("ai", msg.content, msg.id)];
      }
      assert history[..i + 1][..i] == history[..i];
      i := i + 1;
    }
    assert history[..i] == history;
    r := Ok(messages);
  }

  /** The view of a concatenated history is the concatenation of the views. */
  lemma {:induction false} HistoryViewAppend(a: seq<StoredMessage>, b: seq<StoredMessage>)
    ensures HistoryView(a + b) == HistoryView(a) + HistoryView(b)
    decreases |b|
  {
    if b == [] {
      assert a + b == a;
    } else {
      var b' := b[..|b| - 1];
      assert (a + b)[..|a + b| - 1] == a + b';
      HistoryViewAppend(a, b');
    }
  }

  /**
   * Every message of the response is a human or AI message of the history,
   * with its content and id; the response is never longer than the history.
   */
  lemma {:induction false} HistoryViewFromHistory(h: seq<StoredMessage>)
    ensures var r := HistoryView(h);
      forall n :: 0 <= n < |r| ==> exists j :: 0 <= j < |h| && IsChat(h[j]) && ViewOf(h[j]) == [r[n]]
    ensures |HistoryView(h)| <= |h|
  {
    if h != [] {
      var h' := h[..|h| - 1];
      HistoryViewFromHistory(h');
      var r := HistoryView(h);
      var r' := HistoryView(h');
      forall n | 0 <= n < |r|
        ensures exists j :: 0 <= j < |h| && IsChat(h[j]) && ViewOf(h[j]) == [r[n]]
      {
        assert r == r' + ViewOf(h[|h| - 1]);
        if n < |r'| {
          assert r[n] == r'[n];
          var j :| 0 <= j < |h'| && IsChat(h'[j]) && ViewOf(h'[j]) == [r'[n]];
          assert h[j] == h'[j];
        } else {
          var j := |h| - 1;
          assert IsChat(h[j]) && ViewOf(h[j]) == [r[n]];
        }
      }
      assert forall n :: 0 <= n < |r| ==> exists j :: 0 <= j < |h| && IsChat(h[j]) && ViewOf(h[j]) == [r[n]];
    }
  }

  /**
   * Nothing but tool and system messages is dropped: a history of human and AI
   * messages only comes back whole, position by position.
   */
  lemma {:induction false} HistoryViewKeepsChat(h: seq<StoredMessage>)
    requires forall j :: 0 <= j < |h| ==> IsChat(h[j])
    ensures |HistoryView(h)| == |h|
    ensures forall j :: 0 <= j < |h| ==> ViewOf(h[j]) == [HistoryView(h)[j]]
  {
    if h != [] {
      var h' := h[..|h| - 1];
      HistoryViewKeepsChat(h');
    }
  }

  /** Tool and system messages leave no trace in the response. */
  lemma HistoryViewDropsOthers(a: seq<StoredMessage>, m: StoredMessage, b: seq<StoredMessage>)
    requires !IsChat(m)
    ensures HistoryView(a + [m] + b) == HistoryView(a + b)
  {
    HistoryViewAppend(a + [m], b);
    HistoryViewAppend(a, b);
    assert (a + [m])[..|a + [m]| - 1] == a;
  }
}
