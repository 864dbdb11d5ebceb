/**
 * The server side of a chat (`Chat` in _chat.py): the stored messages,
 * the accumulator of the message being streamed, the queue of messages
 * and chunks held back while another stream is active, the checkpoint
 * that `operation="replace"` returns to, and what is sent to the browser.
 *
 * Every operation is a step function on `ChatState` giving the new state
 * and whether the call raised; the class `Chat` holds the same state in
 * fields and its methods are proved to take exactly those steps.  A send
 * raises exactly when the session's transport is down (`up` is false).
 */
module ServerChat {
  import opened Common
  import opened ChatNormalize

  /** The kind of a streamed chunk: `True`, `"start"` or `"end"`. */
  datatype StreamChunk = Middle | Start | End

  /** `ChunkOption`: `False` for a whole message, otherwise the kind of chunk. */
  datatype ChunkOption = Whole | Part(kind: StreamChunk)

  datatype Operation = Append | Replace

  /**
   * `PendingMessage`: a whole message, queued as `(message, False,
   * "append", None)`, or a chunk with its operation and stream id.
   */
  datatype PendingMessage =
    | PendingAppend(message: Incoming)
    | PendingChunk(message: Incoming, chunk: StreamChunk, operation: Operation, streamId: string)

  /** `ClientMessage`; `icon` is absent when `None`, `htmlDeps` when empty. */
  datatype ClientMessage = ClientMessage(
    content: string,
    role: string,
    contentType: string,
    chunkType: Option<string>,
    operation: Operation,
    icon: Option<string>,
    htmlDeps: seq<string>)

  /** A message to the browser: a chat custom message, or an update of the user input. */
  datatype Outgoing =
    | Custom(handler: string, obj: Option<ClientMessage>)
    | UserInputUpdate(value: Option<string>, placeholder: Option<string>, submit: bool, focus: bool)

  /** Whether a call returned normally or raised (with the exception's message). */
  datatype Outcome = Done | Raised(error: string)

  const TransportClosed: string := "the session's connection is closed"
  const UserInputError: string := "An input `value` must be provided when `submit` or `focus` are `True`."

  datatype ChatState = ChatState(
    messages: seq<ChatMessage>,
    streamMessage: string,
    streamId: Option<string>,
    pending: seq<PendingMessage>,
    checkpoint: string,
    sent: seq<Outgoing>,
    up: bool)

  /** Python truthiness of the current stream id: `None` and `""` are inactive. */
  predicate Active(id: Option<string>)
  {
    id.Some? && id.value != ""
  }

  // ---------------------------------------------------------------
  // Sending and storing

  /** Sending `o` (nothing for `None`): appended to what was sent, or raises when the transport is down. */
  function Send(s: ChatState, o: Option<Outgoing>): (r: (ChatState, Outcome))
    ensures o.None? ==> r == (s, Done)
    ensures o.Some? ==> (r.1.Raised? <==> !s.up) && (r.1.Raised? ==> r == (s, Raised(TransportClosed)))
    ensures o.Some? && s.up ==> r.0 == s.(sent := s.sent + [o.value])
  {
    if o.None? then (s, Done)
    else if !s.up then (s, Raised(TransportClosed))
    else (s.(sent := s.sent + [o.value]), Done)
  }

  /** `_send_append_message`: what is sent for a message, `None` for a system message. */
  function AppendMessageOut(m: ChatMessage, chunk: ChunkOption, op: Operation, icon: Option<string>): (r: Option<Outgoing>)
    ensures r.None? <==> m.role == "system"
    ensures r.Some? ==> r.value.Custom? && r.value.obj.Some?
    ensures r.Some? ==> (r.value.handler == "shiny-chat-append-message-chunk" <==> chunk.Part?)
    ensures r.Some? ==> (r.value.handler == "shiny-chat-append-message" <==> chunk.Whole?)
    ensures r.Some? ==>
              var c := r.value.obj.value;
              && (c.chunkType == Some("message_start") <==> chunk == Part(Start))
              && (c.chunkType == Some("message_end") <==> chunk == Part(End))
              && (c.chunkType.None? <==> chunk == Whole || chunk == Part(Middle))
              && (c.contentType == "html" <==> m.content.Html?)
              && (c.contentType == "markdown" <==> m.content.Text?)
              && c.content == ContentString(m.content) && c.role == m.role
              && c.operation == op && c.icon == icon && c.htmlDeps == m.deps
  {
    if m.role == "system" then None
    else
      var handler := if chunk.Part? then "shiny-chat-append-message-chunk" else "shiny-chat-append-message";
      var chunkType := match chunk
        case Part(Start) => Some("message_start")
        case Part(End) => Some("message_end")
        case _ => None;
      var contentType := if m.content.Html? then "html" else "markdown";
      Some(Custom(handler, Some(ClientMessage(ContentString(m.content), m.role, contentType, chunkType, op, icon, m.deps))))
  }

  /** Where Python's `list.insert(i, x)` puts `x` in a list of length `n`. */
  function ClampIndex(i: int, n: nat): (j: nat)
    ensures j <= n
    ensures 0 <= i <= n ==> j == i
    ensures i > n ==> j == n
    ensures -(n as int) <= i < 0 ==> j == n + i
    ensures i < -(n as int) ==> j == 0
  {
    var k := if i < 0 then i + n else i;
    if k < 0 then 0 else if k > n then n else k
  }

  /** `_store_message`: insert at `index`, at the end when it is `None`. */
  function StoreAt(messages: seq<ChatMessage>, m: ChatMessage, index: Option<int>): (r: seq<ChatMessage>)
    ensures |r| == |messages| + 1
    ensures var j := ClampIndex(if index.Some? then index.value else |messages|, |messages|);
            r[..j] == messages[..j] && r[j] == m && r[j + 1..] == messages[j..]
    ensures index.None? ==> r == messages + [m]
    ensures multiset(r) == multiset(messages) + multiset{m}
  {
    var j := ClampIndex(if index.Some? then index.value else |messages|, |messages|);
    assert messages == messages[..j] + messages[j..];
    messages[..j] + [m] + messages[j..]
  }

  // ---------------------------------------------------------------
  // Appending

  /** `append_message`: queued while a stream is active, otherwise normalised, stored and sent. */
  function AppendStep(s: ChatState, message: Incoming, icon: Option<string>): (r: (ChatState, Outcome))
    ensures Active(s.streamId) ==> r == (s.(pending := s.pending + [PendingAppend(message)]), Done)
    ensures !Active(s.streamId) && ContentsShinychat(message).Err? ==>
              r == (s, Raised(ErrorText(ContentsShinychat(message).error)))
    ensures !Active(s.streamId) && ContentsShinychat(message).Ok? ==>
              && r.0.messages == s.messages + [ContentsShinychat(message).value]
              && r.0.pending == s.pending && r.0.streamId == s.streamId
              && r.0.streamMessage == s.streamMessage && r.0.checkpoint == s.checkpoint && r.0.up == s.up
              && (r.1.Raised? <==> !s.up && ContentsShinychat(message).value.role != "system")
  {
    if Active(s.streamId) then (s.(pending := s.pending + [PendingAppend(message)]), Done)
    else match ContentsShinychat(message)
      case Err(e) => (s, Raised(ErrorText(e)))
      case Ok(m) =>
        var s1 := s.(messages := StoreAt(s.messages, m, None));
        Send(s1, AppendMessageOut(m, Whole, Append, icon))
  }

  /** The content a replaced chunk is sent with: the whole accumulated text. */
  function WithContent(m: ChatMessage, text: string): ChatMessage
  {
    m.(content := Text(text))
  }

  /**
   * `_append_message_chunk`: a chunk of another active stream is queued;
   * otherwise this stream becomes the active one, the chunk is normalised
   * and accumulated (appended, or put after the checkpoint), an end chunk
   * stores the whole text as one message, the chunk is sent, and after an
   * end chunk the stream state is reset whether or not the send raised.
   */
  function ChunkStep(s: ChatState, message: Incoming, chunk: StreamChunk, streamId: string, op: Operation, icon: Option<string>)
    : (r: (ChatState, Outcome))
  {
    if Active(s.streamId) && s.streamId != Some(streamId) then
      (s.(pending := s.pending + [PendingChunk(message, chunk, op, streamId)]), Done)
    else
      AcceptStep(s.(streamId := Some(streamId)), message, chunk, op, icon)
  }

  /** A chunk of the current stream, with the stream marked current: normalised, then accumulated and sent. */
  function AcceptStep(s: ChatState, message: Incoming, chunk: StreamChunk, op: Operation, icon: Option<string>)
    : (r: (ChatState, Outcome))
  {
    match ContentsShinychatChunk(message)
      case Err(e) => (s, Raised(ErrorText(e)))
      case Ok(m) => Accumulate(s, m, chunk, op, icon)
  }

  /** The message sent for an accepted chunk: for a replacement, the whole new text. */
  function SentChunk(s: ChatState, m: ChatMessage, op: Operation): ChatMessage
  {
    if op == Replace then WithContent(m, s.checkpoint + ContentString(m.content)) else m
  }

  /** The state after a chunk is accepted: the text accumulated, and stored when the chunk ends the stream. */
  function AcceptedState(s: ChatState, m: ChatMessage, chunk: StreamChunk, op: Operation): ChatState
  {
    var text := if op == Replace then s.checkpoint + ContentString(m.content)
                else s.streamMessage + ContentString(m.content);
    var s2 := s.(streamMessage := text);
    if chunk == End then s2.(messages := StoreAt(s2.messages, MakeMessage(StrIn(text), m.role), None)) else s2
  }

  /** The accepted chunk `m` of the active stream: accumulated, stored when it ends the stream, sent. */
  function Accumulate(s: ChatState, m: ChatMessage, chunk: StreamChunk, op: Operation, icon: Option<string>)
    : (r: (ChatState, Outcome))
  {
    var sent := Send(AcceptedState(s, m, chunk, op), AppendMessageOut(SentChunk(s, m, op), Part(chunk), op, icon));
    if chunk == End then (sent.0.(streamId := None, streamMessage := "", checkpoint := ""), sent.1)
    else sent
  }

  /** A chunk of a stream other than the active one is queued as it is; nothing else changes. */
  lemma OtherStreamQueued(s: ChatState, message: Incoming, chunk: StreamChunk, streamId: string, op: Operation, icon: Option<string>)
    requires Active(s.streamId) && s.streamId != Some(streamId)
    ensures ChunkStep(s, message, chunk, streamId, op, icon)
            == (s.(pending := s.pending + [PendingChunk(message, chunk, op, streamId)]), Done)
  {
  }

  /**
   * A chunk of the active stream (or with no stream active) that is not an
   * end chunk: `"append"` extends the text by exactly the chunk's content,
   * `"replace"` makes it the checkpoint followed by the content, and what is
   * sent for a replacement is the whole new text.
   */
  lemma ChunkAccumulates(s: ChatState, message: Incoming, chunk: StreamChunk, streamId: string, op: Operation, icon: Option<string>)
    requires !(Active(s.streamId) && s.streamId != Some(streamId))
    requires ContentsShinychatChunk(message).Ok? && chunk != End
    ensures var m := ContentsShinychatChunk(message).value;
            var r := ChunkStep(s, message, chunk, streamId, op, icon);
            && r.0.streamId == Some(streamId)
            && r.0.streamMessage == (if op == Append then s.streamMessage else s.checkpoint) + ContentString(m.content)
            && r.0.messages == s.messages && r.0.pending == s.pending && r.0.checkpoint == s.checkpoint
            && (r.1.Raised? <==> !s.up && m.role != "system")
            && (s.up && m.role != "system" && op == Replace ==>
                  r.0.sent == s.sent + [AppendMessageOut(WithContent(m, r.0.streamMessage), Part(chunk), op, icon).value]
                  && r.0.sent[|s.sent|].obj.value.content == r.0.streamMessage)
  {
  }

  /**
   * An end chunk stores the whole accumulated text, not the last chunk, as
   * one message with the chunk's role, and resets the stream id, text and
   * checkpoint even when the send raises.
   */
  lemma EndStoresWholeText(s: ChatState, message: Incoming, streamId: string, op: Operation, icon: Option<string>)
    requires !(Active(s.streamId) && s.streamId != Some(streamId))
    requires ContentsShinychatChunk(message).Ok?
    ensures var m := ContentsShinychatChunk(message).value;
            var text := (if op == Append then s.streamMessage else s.checkpoint) + ContentString(m.content);
            var r := ChunkStep(s, message, End, streamId, op, icon);
            && r.0.messages == s.messages + [ChatMessage(Text(text), m.role, [])]
            && r.0.streamId == None && r.0.streamMessage == "" && r.0.checkpoint == ""
            && r.0.pending == s.pending
            && (r.1.Raised? <==> !s.up && m.role != "system")
  {
  }

  // ---------------------------------------------------------------
  // Flushing the queue

  /** Replaying one queued entry: a whole message through `append_message`, a chunk with its own stream id. */
  function ReplayOne(s: ChatState, p: PendingMessage): (ChatState, Outcome)
  {
    match p
      case PendingAppend(message) => AppendStep(s, message, None)
      case PendingChunk(message, chunk, op, streamId) => ChunkStep(s, message, chunk, streamId, op, None)
  }

  /** Replaying a queue front to back; the first entry that raises ends the replay, dropping the rest. */
  function Replay(s: ChatState, queue: seq<PendingMessage>): (r: (ChatState, Outcome))
    decreases |queue|
  {
    if queue == [] then (s, Done)
    else
      var r1 := ReplayOne(s, queue[0]);
      if r1.1.Raised? then r1 else Replay(r1.0, queue[1..])
  }

  /** `_flush_pending_messages`: the whole queue is taken and emptied before it is replayed. */
  function FlushStep(s: ChatState): (r: (ChatState, Outcome))
  {
    Replay(s.(pending := []), s.pending)
  }

  /** Every entry is a whole message that normalises. */
  predicate AllWhole(queue: seq<PendingMessage>)
  {
    forall i :: 0 <= i < |queue| ==> queue[i].PendingAppend? && ContentsShinychat(queue[i].message).Ok?
  }

  lemma AllWholeTail(queue: seq<PendingMessage>)
    requires queue != [] && AllWhole(queue)
    ensures queue[0].PendingAppend? && ContentsShinychat(queue[0].message).Ok? && AllWhole(queue[1..])
  {
    assert forall i :: 0 <= i < |queue[1..]| ==> queue[1..][i] == queue[i + 1];
  }

  /** The messages a queue of whole messages normalises to, in order. */
  function NormalizedAll(queue: seq<PendingMessage>): seq<ChatMessage>
    requires AllWhole(queue)
  {
    if queue == [] then []
    else
      AllWholeTail(queue);
      [ContentsShinychat(queue[0].message).value] + NormalizedAll(queue[1..])
  }

  /**
   * With no stream active and a live transport, replaying whole messages
   * that all normalise stores them after the existing ones in queue order
   * and queues nothing again.
   */
  lemma {:induction false} ReplayInOrder(s: ChatState, queue: seq<PendingMessage>)
    requires !Active(s.streamId) && s.up
    requires AllWhole(queue)
    ensures var r := Replay(s, queue);
            && r.1 == Done
            && r.0.messages == s.messages + NormalizedAll(queue)
            && r.0.pending == s.pending && r.0.streamId == s.streamId && r.0.up
    decreases |queue|
  {
    if queue != [] {
      AllWholeTail(queue);
      var m := ContentsShinychat(queue[0].message).value;
      var s1 := AppendStep(s, queue[0].message, None).0;
      assert s1.messages == s.messages + [m];
      assert s1.pending == s.pending && s1.streamId == s.streamId && s1.up;
      ReplayUnfoldAppend(s, queue);
      var r := Replay(s1, queue[1..]);
      assert Replay(s, queue) == r;
      ReplayInOrder(s1, queue[1..]);
      var rest := NormalizedAll(queue[1..]);
      assert r.0.messages == s1.messages + rest;
      assert NormalizedAll(queue) == [m] + rest;
      ConcatAssoc(s.messages, [m], rest);
    }
  }

  lemma ConcatAssoc<T>(a: seq<T>, b: seq<T>, c: seq<T>)
    ensures a + b + c == a + (b + c)
  {
  }

  /** A replay that starts with a whole message that does not raise goes on with the rest. */
  lemma ReplayUnfoldAppend(s: ChatState, queue: seq<PendingMessage>)
    requires queue != [] && queue[0].PendingAppend? && AppendStep(s, queue[0].message, None).1 == Done
    ensures Replay(s, queue) == Replay(AppendStep(s, queue[0].message, None).0, queue[1..])
  {
    assert ReplayOne(s, queue[0]) == AppendStep(s, queue[0].message, None);
  }

  /** Flushing a queue of whole messages, with no stream active, stores them in FIFO order and leaves the queue empty. */
  lemma FlushIsFifo(s: ChatState)
    requires !Active(s.streamId) && s.up
    requires AllWhole(s.pending)
    ensures var r := FlushStep(s);
            r.1 == Done && r.0.messages == s.messages + NormalizedAll(s.pending) && r.0.pending == []
  {
    ReplayInOrder(s.(pending := []), s.pending);
  }

  /**
   * The queue is only flushed by `_flush_pending_messages`: a flush that
   * replays the start chunk of another stream makes that stream active,
   * so the whole message queued after it goes back into the queue.
   */
  lemma FlushRequeuesAfterStart(s: ChatState, start: Incoming, op: Operation, streamId: string, later: Incoming)
    requires !Active(s.streamId) && s.up && streamId != ""
    requires ContentsShinychatChunk(start).Ok?
    requires s.pending == [PendingChunk(start, Start, op, streamId), PendingAppend(later)]
    ensures var r := FlushStep(s);
            r.1 == Done && r.0.pending == [PendingAppend(later)] && r.0.streamId == Some(streamId)
  {
    var s0 := s.(pending := []);
    var r1 := ReplayOne(s0, s.pending[0]);
    assert r1 == ChunkStep(s0, start, Start, streamId, op, None);
    assert r1.1 == Done && r1.0.pending == [] && r1.0.streamId == Some(streamId);
    assert s.pending[1..] == [PendingAppend(later)];
    var r2 := ReplayOne(r1.0, PendingAppend(later));
    assert r2 == (r1.0.(pending := r1.0.pending + [PendingAppend(later)]), Done);
    assert r1.0.pending + [PendingAppend(later)] == [PendingAppend(later)];
    assert Replay(r1.0, s.pending[1..]) == Replay(r2.0, []);
  }

  /** An accepted chunk leaves the queue as it was. */
  lemma AcceptKeepsQueue(s: ChatState, message: Incoming, chunk: StreamChunk, op: Operation, icon: Option<string>)
    ensures AcceptStep(s, message, chunk, op, icon).0.pending == s.pending
  {
    match ContentsShinychatChunk(message)
      case Err(_) =>
      case Ok(m) =>
        var a := AcceptedState(s, m, chunk, op);
        assert a.pending == s.pending;
        var sent := Send(a, AppendMessageOut(SentChunk(s, m, op), Part(chunk), op, icon));
        assert sent.0.pending == a.pending;
        assert Accumulate(s, m, chunk, op, icon).0.pending == sent.0.pending;
  }

  /** A chunk never takes anything out of the queue: it is queued itself, or the queue stays as it was. */
  lemma ChunkKeepsQueue(s: ChatState, message: Incoming, chunk: StreamChunk, streamId: string, op: Operation, icon: Option<string>)
    ensures var r := ChunkStep(s, message, chunk, streamId, op, icon).0;
            r.pending == s.pending || r.pending == s.pending + [PendingChunk(message, chunk, op, streamId)]
  {
    if !(Active(s.streamId) && s.streamId != Some(streamId)) {
      AcceptKeepsQueue(s.(streamId := Some(streamId)), message, chunk, op, icon);
    }
  }

  /**
   * `message_stream_context` never flushes the queue: entering leaves it
   * as it was, and leaving adds at most the end chunk of its own stream,
   * queued when another stream is active.
   */
  lemma ContextNeverFlushes(s: ChatState, freshId: string, t: ChatState, f: StreamFrame)
    ensures EnterStep(s, freshId).0.pending == s.pending
    ensures var x := ExitStep(t, f).0;
            x.pending == t.pending || x.pending == t.pending + [PendingChunk(Plain(StrIn("")), End, Append, f.streamId)]
  {
    if s.streamId.None? {
      ChunkKeepsQueue(s.(checkpoint := s.streamMessage), Plain(StrIn("")), Start, freshId, Append, None);
    }
    if f.isRoot {
      ChunkKeepsQueue(t.(checkpoint := f.oldCheckpoint), Plain(StrIn("")), End, f.streamId, Append, None);
    }
  }

  /** Messages appended while a stream is active are queued in the order they were appended. */
  lemma QueueWhileStreaming(s: ChatState, a: Incoming, b: Incoming)
    requires Active(s.streamId)
    ensures var r1 := AppendStep(s, a, None);
            var r2 := AppendStep(r1.0, b, None);
            r2 == (s.(pending := s.pending + [PendingAppend(a), PendingAppend(b)]), Done)
  {
    assert s.pending + [PendingAppend(a)] + [PendingAppend(b)] == s.pending + [PendingAppend(a), PendingAppend(b)];
  }

  // ---------------------------------------------------------------
  // Streams

  /** The empty assistant message a stream starts and ends with. */
  const EmptyAssistant: Incoming := Dict(Some(StrIn("")), Some("assistant"))

  /** Every chunk normalises. */
  predicate AllNormalize(chunks: seq<Incoming>)
  {
    forall i :: 0 <= i < |chunks| ==> ContentsShinychatChunk(chunks[i]).Ok?
  }

  /** The text of the chunks' contents, one after the other. */
  function ChunkTexts(chunks: seq<Incoming>): string
    requires AllNormalize(chunks)
  {
    if chunks == [] then ""
    else ContentString(ContentsShinychatChunk(chunks[0]).value.content) + ChunkTexts(chunks[1..])
  }

  /** The middle chunks of a stream, each appended; the first that raises ends the loop. */
  function StreamChunks(s: ChatState, chunks: seq<Incoming>, streamId: string): (r: (ChatState, Outcome))
    decreases |chunks|
  {
    if chunks == [] then (s, Done)
    else
      var r1 := ChunkStep(s, chunks[0], Middle, streamId, Append, None);
      if r1.1.Raised? then r1 else StreamChunks(r1.0, chunks[1..], streamId)
  }

  /** A stream loop whose first chunk does not raise goes on with the rest. */
  lemma StreamChunksUnfold(s: ChatState, chunks: seq<Incoming>, streamId: string)
    requires chunks != [] && ChunkStep(s, chunks[0], Middle, streamId, Append, None).1 == Done
    ensures StreamChunks(s, chunks, streamId) == StreamChunks(ChunkStep(s, chunks[0], Middle, streamId, Append, None).0, chunks[1..], streamId)
  {
  }

  /** Streaming chunks into the active stream accumulates exactly their texts, in order. */
  lemma {:induction false} StreamChunksAccumulate(s: ChatState, chunks: seq<Incoming>, streamId: string)
    requires s.streamId == Some(streamId) && s.up && AllNormalize(chunks)
    ensures var r := StreamChunks(s, chunks, streamId);
            && r.1 == Done
            && r.0.streamMessage == s.streamMessage + ChunkTexts(chunks)
            && r.0.streamId == s.streamId && r.0.messages == s.messages
            && r.0.pending == s.pending && r.0.checkpoint == s.checkpoint && r.0.up
    decreases |chunks|
  {
    if chunks != [] {
      var s1 := ChunkStep(s, chunks[0], Middle, streamId, Append, None).0;
      ChunkAccumulates(s, chunks[0], Middle, streamId, Append, None);
      assert AllNormalize(chunks[1..]) by {
        forall i | 0 <= i < |chunks[1..]| ensures ContentsShinychatChunk(chunks[1..][i]).Ok? {
          assert chunks[1..][i] == chunks[i + 1];
        }
      }
      StreamChunksUnfold(s, chunks, streamId);
      StreamChunksAccumulate(s1, chunks[1..], streamId);
      var head := ContentString(ContentsShinychatChunk(chunks[0]).value.content);
      assert ChunkTexts(chunks) == head + ChunkTexts(chunks[1..]);
      ConcatAssoc(s.streamMessage, head, ChunkTexts(chunks[1..]));
    }
  }

  /**
   * `_append_message_stream`: a start chunk (outside the `try`), the
   * chunks, then, whatever happened, an end chunk and a flush of the queue.
   * The third component is the returned accumulated text, `None` when the
   * call raised.  An exception in the `finally` replaces one from the loop.
   */
  function AppendStreamStep(s: ChatState, chunks: seq<Incoming>, streamId: string, icon: Option<string>)
    : (r: (ChatState, Outcome, Option<string>))
    ensures r.2.Some? <==> r.1 == Done
  {
    var r1 := ChunkStep(s, EmptyAssistant, Start, streamId, Append, icon);
    if r1.1.Raised? then (r1.0, r1.1, None)
    else
      var r2 := StreamChunks(r1.0, chunks, streamId);
      var text := r2.0.streamMessage;
      var r3 := ChunkStep(r2.0, EmptyAssistant, End, streamId, Append, None);
      if r3.1.Raised? then (r3.0, r3.1, None)
      else
        var r4 := FlushStep(r3.0);
        if r4.1.Raised? then (r4.0, r4.1, None)
        else if r2.1.Raised? then (r4.0, r2.1, None)
        else (r4.0, Done, Some(text))
  }

  /**
   * With no stream active, nothing queued and a live transport, a stream
   * of chunks that all normalise returns the concatenation of their texts
   * and stores it as one assistant message; afterwards no stream is active.
   */
  lemma StreamStoresOneMessage(s: ChatState, chunks: seq<Incoming>, streamId: string, icon: Option<string>)
    requires !Active(s.streamId) && s.streamMessage == "" && s.pending == [] && s.up && AllNormalize(chunks)
    ensures var r := AppendStreamStep(s, chunks, streamId, icon);
            && r.1 == Done && r.2 == Some(ChunkTexts(chunks))
            && r.0.messages == s.messages + [ChatMessage(Text(ChunkTexts(chunks)), "assistant", [])]
            && r.0.streamId == None && r.0.streamMessage == "" && r.0.pending == []
  {
    StartsEmpty(s, streamId, icon);
    var s1 := ChunkStep(s, EmptyAssistant, Start, streamId, Append, icon).0;
    StreamChunksAccumulate(s1, chunks, streamId);
    var s2 := StreamChunks(s1, chunks, streamId).0;
    assert s2.streamMessage == ChunkTexts(chunks) by {
      assert s2.streamMessage == "" + ChunkTexts(chunks);
    }
    EndsEmpty(s2, streamId);
    var s3 := ChunkStep(s2, EmptyAssistant, End, streamId, Append, None).0;
    assert FlushStep(s3) == (s3, Done);
  }

  /** The empty start chunk of a stream, with no stream active: nothing but the stream id changes, and nothing raises. */
  lemma StartsEmpty(s: ChatState, streamId: string, icon: Option<string>)
    requires !Active(s.streamId) && s.up
    ensures var r := ChunkStep(s, EmptyAssistant, Start, streamId, Append, icon);
            && r.1 == Done && r.0.streamMessage == s.streamMessage && r.0.streamId == Some(streamId)
            && r.0.messages == s.messages && r.0.pending == s.pending && r.0.up
  {
    var empty := ChatMessage(Text(""), "assistant", []);
    assert ContentsShinychatChunk(EmptyAssistant) == Ok(empty);
    ChunkAccumulates(s, EmptyAssistant, Start, streamId, Append, icon);
    assert s.streamMessage + ContentString(empty.content) == s.streamMessage;
  }

  /** The empty end chunk of the active stream stores its text as one assistant message and ends the stream. */
  lemma EndsEmpty(s: ChatState, streamId: string)
    requires s.streamId == Some(streamId) && s.up
    ensures var r := ChunkStep(s, EmptyAssistant, End, streamId, Append, None);
            && r.1 == Done && r.0.messages == s.messages + [ChatMessage(Text(s.streamMessage), "assistant", [])]
            && r.0.streamId == None && r.0.streamMessage == "" && r.0.pending == s.pending
  {
    var empty := ChatMessage(Text(""), "assistant", []);
    assert ContentsShinychatChunk(EmptyAssistant) == Ok(empty);
    EndStoresWholeText(s, EmptyAssistant, streamId, Append, None);
    assert s.streamMessage + ContentString(empty.content) == s.streamMessage;
  }

  // ---------------------------------------------------------------
  // Nested stream contexts

  /** What `message_stream_context` keeps between entering and leaving: the previous checkpoint, the stream and whether it started it. */
  datatype StreamFrame = StreamFrame(oldCheckpoint: string, streamId: string, isRoot: bool)

  /**
   * Entering `message_stream_context`: the checkpoint becomes the text
   * accumulated so far; with no stream (`None`, not merely falsy) a fresh
   * stream is started with a start chunk, which is outside the `try`.
   */
  function EnterStep(s: ChatState, freshId: string): (r: (ChatState, StreamFrame, Outcome))
    ensures r.1.oldCheckpoint == s.checkpoint
    ensures r.1.isRoot <==> s.streamId.None?
    ensures !r.1.isRoot ==> r == (s.(checkpoint := s.streamMessage), StreamFrame(s.checkpoint, s.streamId.value, false), Done)
    ensures r.1.isRoot ==> r.1.streamId == freshId
  {
    var s1 := s.(checkpoint := s.streamMessage);
    if s.streamId.None? then
      var started := ChunkStep(s1, Plain(StrIn("")), Start, freshId, Append, None);
      (started.0, StreamFrame(s.checkpoint, freshId, true), started.1)
    else (s1, StreamFrame(s.checkpoint, s.streamId.value, false), Done)
  }

  /** Leaving the context: the previous checkpoint is restored, and only the context that started the stream ends it. */
  function ExitStep(s: ChatState, f: StreamFrame): (r: (ChatState, Outcome))
    ensures !f.isRoot ==> r == (s.(checkpoint := f.oldCheckpoint), Done)
  {
    var s1 := s.(checkpoint := f.oldCheckpoint);
    if f.isRoot then ChunkStep(s1, Plain(StrIn("")), End, f.streamId, Append, None) else (s1, Done)
  }

  /** A context nested in an active stream sends nothing on entry or exit and, left at once, changes nothing. */
  lemma NestedContextTransparent(s: ChatState, freshId: string)
    requires s.streamId.Some?
    ensures var e := EnterStep(s, freshId);
            && e.2 == Done && e.0.sent == s.sent && !e.1.isRoot
            && ExitStep(e.0, e.1) == (s, Done)
  {
  }

  /**
   * Inside a context nested in the active stream, `replace` puts the new
   * content after the text accumulated when the context was entered.
   */
  lemma ReplaceReturnsToEntry(s: ChatState, freshId: string, x: Incoming)
    requires Active(s.streamId) && ContentsShinychatChunk(x).Ok?
    ensures var e := EnterStep(s, freshId);
            ChunkStep(e.0, x, Middle, e.1.streamId, Replace, None).0.streamMessage
            == s.streamMessage + ContentString(ContentsShinychatChunk(x).value.content)
  {
    var e := EnterStep(s, freshId);
    ChunkAccumulates(e.0, x, Middle, e.1.streamId, Replace, None);
  }

  /** The empty assistant chunk that opens or closes a stream, by its chunk type. */
  function Boundary(chunkType: string): Outgoing
  {
    Custom("shiny-chat-append-message-chunk", Some(ClientMessage("", "assistant", "markdown", Some(chunkType), Append, None, [])))
  }

  /** Entering the outermost context starts a fresh stream with one start chunk, keeping the text so far. */
  lemma EnterRoot(s: ChatState, freshId: string)
    requires s.streamId.None? && s.up
    ensures EnterStep(s, freshId)
            == (s.(checkpoint := s.streamMessage, streamId := Some(freshId), sent := s.sent + [Boundary("message_start")]),
                StreamFrame(s.checkpoint, freshId, true), Done)
  {
    var empty := ChatMessage(Text(""), "assistant", []);
    assert ContentsShinychatChunk(Plain(StrIn(""))) == Ok(empty);
    assert s.streamMessage + "" == s.streamMessage;
    assert AppendMessageOut(empty, Part(Start), Append, None) == Some(Boundary("message_start"));
  }

  /** Leaving the outermost context stores the stream's text as one assistant message and sends one end chunk. */
  lemma ExitRoot(t: ChatState, f: StreamFrame)
    requires f.isRoot && t.streamId == Some(f.streamId) && t.up
    ensures ExitStep(t, f)
            == (t.(messages := t.messages + [ChatMessage(Text(t.streamMessage), "assistant", [])],
                   sent := t.sent + [Boundary("message_end")],
                   streamId := None, streamMessage := "", checkpoint := ""), Done)
  {
    var empty := ChatMessage(Text(""), "assistant", []);
    assert ContentsShinychatChunk(Plain(StrIn(""))) == Ok(empty);
    assert t.streamMessage + "" == t.streamMessage;
    assert AppendMessageOut(empty, Part(End), Append, None) == Some(Boundary("message_end"));
  }

  /**
   * The outermost context, with a live transport and nothing streamed
   * inside it, sends a start chunk and an end chunk, stores the text it
   * found as one assistant message and leaves no stream active.
   */
  lemma RootContextStartsAndEnds(s: ChatState, freshId: string)
    requires s.streamId.None? && s.up
    ensures var e := EnterStep(s, freshId);
            var x := ExitStep(e.0, e.1);
            && e.1.isRoot && e.2 == Done && x.1 == Done
            && x.0.messages == s.messages + [ChatMessage(Text(s.streamMessage), "assistant", [])]
            && x.0.sent == s.sent + [Boundary("message_start"), Boundary("message_end")]
            && x.0.streamId == None && x.0.checkpoint == ""
  {
    EnterRoot(s, freshId);
    var e := EnterStep(s, freshId);
    ExitRoot(e.0, e.1);
    ConcatAssoc(s.sent, [Boundary("message_start")], [Boundary("message_end")]);
  }

  // ---------------------------------------------------------------
  // Input and clearing

  /** `update_user_input`: `submit` or `focus` without a value raises; otherwise the update is sent. */
  function UpdateUserInputStep(s: ChatState, value: Option<string>, placeholder: Option<string>, submit: bool, focus: bool)
    : (r: (ChatState, Outcome))
    ensures r.1 == Raised(UserInputError) <==> value.None? && (submit || focus)
    ensures r.1.Raised? ==> r.0 == s
    ensures r.1 == Done ==> r.0 == s.(sent := s.sent + [UserInputUpdate(value, placeholder, submit, focus)])
  {
    if value.None? && (submit || focus) then (s, Raised(UserInputError))
    else Send(s, Some(UserInputUpdate(value, placeholder, submit, focus)))
  }

  /** `clear_messages`: the stored messages are emptied, then the browser is told. */
  function ClearStep(s: ChatState): (r: (ChatState, Outcome))
    ensures r.0.messages == [] && r.0.pending == s.pending && r.0.streamId == s.streamId
    ensures r.1.Raised? <==> !s.up
  {
    Send(s.(messages := []), Some(Custom("shiny-chat-clear-messages", None)))
  }

  // ---------------------------------------------------------------
  // The chat object

  class Chat {
    var messages: seq<ChatMessage>
    var currentStreamMessage: string
    var currentStreamId: Option<string>
    var pendingMessages: seq<PendingMessage>
    var messageStreamCheckpoint: string
    /** what has been sent to the browser, in order */
    var sent: seq<Outgoing>
    /** whether the session's transport is up */
    var up: bool

    function State(): ChatState
      reads this
    {
      ChatState(messages, currentStreamMessage, currentStreamId, pendingMessages, messageStreamCheckpoint, sent, up)
    }

    constructor (up: bool)
      ensures State() == ChatState([], "", None, [], "", [], up)
    {
      messages := [];
      currentStreamMessage := "";
      currentStreamId := None;
      pendingMessages := [];
      messageStreamCheckpoint := "";
      sent := [];
      this.up := up;
    }

    method SendMessage(o: Option<Outgoing>) returns (outcome: Outcome)
      modifies this
      ensures (State(), outcome) == Send(old(State()), o)
    {
      if o.None? {
        return Done;
      }
      if !up {
        return Raised(TransportClosed);
      }
      sent := sent + [o.value];
      outcome := Done;
    }

    method StoreMessage(m: ChatMessage, index: Option<int>)
      modifies this
      ensures State() == old(State()).(messages := StoreAt(old(messages), m, index))
    {
      var i := if index.None? then |messages| else index.value;
      var j := ClampIndex(i, |messages|);
      messages := messages[..j] + [m] + messages[j..];
    }

    method SendAppendMessage(m: ChatMessage, chunk: ChunkOption, op: Operation, icon: Option<string>) returns (outcome: Outcome)
      modifies this
      ensures (State(), outcome) == Send(old(State()), AppendMessageOut(m, chunk, op, icon))
    {
      outcome := SendMessage(AppendMessageOut(m, chunk, op, icon));
    }

    method AppendMessage(message: Incoming, icon: Option<string>) returns (outcome: Outcome)
      modifies this
      ensures (State(), outcome) == AppendStep(old(State()), message, icon)
    {
      if Active(currentStreamId) {
        pendingMessages := pendingMessages + [PendingAppend(message)];
        return Done;
      }
      var normalized := ContentsShinychat(message);
      if normalized.Err? {
        return Raised(ErrorText(normalized.error));
      }
      StoreMessage(normalized.value, None);
      outcome := SendAppendMessage(normalized.value, Whole, Append, icon);
    }

    method AppendMessageChunk(message: Incoming, chunk: StreamChunk, streamId: string, op: Operation, icon: Option<string>)
      returns (outcome: Outcome)
      modifies this
      ensures (State(), outcome) == ChunkStep(old(State()), message, chunk, streamId, op, icon)
    {
      if Active(currentStreamId) && currentStreamId != Some(streamId) {
        pendingMessages := pendingMessages + [PendingChunk(message, chunk, op, streamId)];
        assert State() == old(State()).(pending := old(State()).pending + [PendingChunk(message, chunk, op, streamId)]);
        return Done;
      }
      currentStreamId := Some(streamId);
      assert State() == old(State()).(streamId := Some(streamId));
      outcome := AcceptMessageChunk(message, chunk, op, icon);
    }

    /** A chunk of the stream now current: normalised, then accumulated and sent. */
    method AcceptMessageChunk(message: Incoming, chunk: StreamChunk, op: Operation, icon: Option<string>)
      returns (outcome: Outcome)
      modifies this
      ensures (State(), outcome) == AcceptStep(old(State()), message, chunk, op, icon)
    {
      var normalized := ContentsShinychatChunk(message);
      if normalized.Err? {
        return Raised(ErrorText(normalized.error));
      }
      outcome := AccumulateChunk(normalized.value, chunk, op, icon);
    }

    /** The part of `_append_message_chunk` after the chunk is accepted and normalised. */
    method AccumulateChunk(m: ChatMessage, chunk: StreamChunk, op: Operation, icon: Option<string>) returns (outcome: Outcome)
      modifies this
      ensures (State(), outcome) == Accumulate(old(State()), m, chunk, op, icon)
    {
      var msg := AcceptChunk(m, chunk, op);
      outcome := SendAppendMessage(msg, Part(chunk), op, icon);
      if chunk == End {
        currentStreamId := None;
        currentStreamMessage := "";
        messageStreamCheckpoint := "";
      }
    }

    /** Accumulating the chunk's content, and storing the whole text on an end chunk; `msg` is what is to be sent. */
    method AcceptChunk(m: ChatMessage, chunk: StreamChunk, op: Operation) returns (msg: ChatMessage)
      modifies this
      ensures State() == AcceptedState(old(State()), m, chunk, op)
      ensures msg == SentChunk(old(State()), m, op)
    {
      msg := m;
      if op == Replace {
        currentStreamMessage := messageStreamCheckpoint + ContentString(msg.content);
        msg := WithContent(msg, currentStreamMessage);
      } else {
        currentStreamMessage := currentStreamMessage + ContentString(msg.content);
      }
      if chunk == End {
        StoreMessage(MakeMessage(StrIn(currentStreamMessage), msg.role), None);
      }
    }

    /** `MessageStream.append` / `MessageStream.replace` on the stream of a context. */
    method StreamWrite(f: StreamFrame, message: Incoming, op: Operation) returns (outcome: Outcome)
      modifies this
      ensures (State(), outcome) == ChunkStep(old(State()), message, Middle, f.streamId, op, None)
    {
      outcome := AppendMessageChunk(message, Middle, f.streamId, op, None);
    }

    method EnterStreamContext(freshId: string) returns (f: StreamFrame, outcome: Outcome)
      modifies this
      ensures (State(), f, outcome) == EnterStep(old(State()), freshId)
    {
      var oldCheckpoint := messageStreamCheckpoint;
      messageStreamCheckpoint := currentStreamMessage;
      if currentStreamId.None? {
        f := StreamFrame(oldCheckpoint, freshId, true);
        outcome := AppendMessageChunk(Plain(StrIn("")), Start, freshId, Append, None);
      } else {
        f := StreamFrame(oldCheckpoint, currentStreamId.value, false);
        outcome := Done;
      }
    }

    method ExitStreamContext(f: StreamFrame) returns (outcome: Outcome)
      modifies this
      ensures (State(), outcome) == ExitStep(old(State()), f)
    {
      messageStreamCheckpoint := f.oldCheckpoint;
      outcome := Done;
      if f.isRoot {
        outcome := AppendMessageChunk(Plain(StrIn("")), End, f.streamId, Append, None);
      }
    }

    /** `_flush_pending_messages`: take the queue, empty it, replay it in order; the first exception stops the replay. */
    method FlushPendingMessages() returns (outcome: Outcome)
      modifies this
      ensures (State(), outcome) == FlushStep(old(State()))
    {
      var pending := pendingMessages;
      pendingMessages := [];
      ghost var start := State();
      outcome := Done;
      for i := 0 to |pending|
        invariant Replay(start, pending) == Replay(State(), pending[i..])
      {
        var p := pending[i];
        ghost var before := State();
        if p.PendingAppend? {
          outcome := AppendMessage(p.message, None);
        } else {
          outcome := AppendMessageChunk(p.message, p.chunk, p.streamId, p.operation, None);
        }
        assert (State(), outcome) == ReplayOne(before, p);
        if outcome.Raised? {
          assert Replay(before, pending[i..]) == (State(), outcome);
          return;
        }
        assert pending[i..][1..] == pending[i + 1..];
      }
      assert pending[|pending|..] == [];
      outcome := Done;
    }

    /**
     * `_append_message_stream` over the chunks of `chunks`; `result` is the
     * accumulated text it returns, `None` when it raised.
     */
    method AppendMessageStream(chunks: seq<Incoming>, streamId: string, icon: Option<string>)
      returns (result: Option<string>, outcome: Outcome)
      modifies this
      ensures (State(), outcome, result) == AppendStreamStep(old(State()), chunks, streamId, icon)
    {
      outcome := AppendMessageChunk(EmptyAssistant, Start, streamId, Append, icon);
      if outcome.Raised? {
        return None, outcome;
      }
      ghost var afterStart := State();
      var loopOutcome := Done;
      var i := 0;
      while i < |chunks|
        invariant 0 <= i <= |chunks|
        invariant loopOutcome == Done
        invariant StreamChunks(afterStart, chunks, streamId) == StreamChunks(State(), chunks[i..], streamId)
      {
        ghost var before := State();
        var o := AppendMessageChunk(chunks[i], Middle, streamId, Append, None);
        if o.Raised? {
          assert StreamChunks(before, chunks[i..], streamId) == (State(), o);
          loopOutcome := o;
          break;
        }
        assert chunks[i..][1..] == chunks[i + 1..];
        i := i + 1;
      }
      assert loopOutcome == Done ==> i == |chunks| && chunks[i..] == [];
      assert StreamChunks(afterStart, chunks, streamId) == (State(), loopOutcome);
      var text := currentStreamMessage;
      var endOutcome := AppendMessageChunk(EmptyAssistant, End, streamId, Append, None);
      if endOutcome.Raised? {
        return None, endOutcome;
      }
      var flushOutcome := FlushPendingMessages();
      if flushOutcome.Raised? {
        return None, flushOutcome;
      }
      if loopOutcome.Raised? {
        return None, loopOutcome;
      }
      return Some(text), Done;
    }

    method UpdateUserInput(value: Option<string>, placeholder: Option<string>, submit: bool, focus: bool) returns (outcome: Outcome)
      modifies this
      ensures (State(), outcome) == UpdateUserInputStep(old(State()), value, placeholder, submit, focus)
    {
      if value.None? && (submit || focus) {
        return Raised(UserInputError);
      }
      outcome := SendMessage(Some(UserInputUpdate(value, placeholder, submit, focus)));
    }

    method ClearMessages() returns (outcome: Outcome)
      modifies this
      ensures (State(), outcome) == ClearStep(old(State()))
    {
      messages := [];
      outcome := SendMessage(Some(Custom("shiny-chat-clear-messages", None)));
    }
  }
}
