/**
 * The chat message record the client components pass around, and the
 * list rules more than one of them applies: rewriting the last message
 * for a chunk, dropping blank ("loading") messages, and the chunk rule
 * shared by `useChatState` and `ChatContainer`.
 */
module ChatTypes {
  import opened Common

  datatype Role = User | Assistant

  /** `chunk_type`: `"message_start"`, `"message_end"`, or absent/`null` (`None`). */
  datatype ChunkType = MessageStart | MessageEnd

  /**
   * A chat message.  Optional fields are `None` when absent; `operation`
   * is `"append"` or absent, and any other value counts as a replace.
   */
  datatype Message = Message(
    id: Option<string>,
    content: string,
    role: Role,
    contentType: Option<string>,
    chunkType: Option<ChunkType>,
    icon: Option<string>,
    operation: Option<string>,
    streaming: Option<bool>)

  /** A message with only content and role set. */
  function Plain(content: string, role: Role, contentType: Option<string>): (m: Message)
    ensures m.content == content && m.role == role && m.contentType == contentType
    ensures m.id.None? && m.chunkType.None? && m.icon.None? && m.operation.None? && m.streaming.None?
  {
    Message(None, content, role, contentType, None, None, None, None)
  }

  /** JavaScript's `a || b` on an optional string: `b` when `a` is absent or empty. */
  function OrElse(a: Option<string>, b: string): (r: string)
    ensures a.Some? && a.value != "" ==> r == a.value
    ensures a.None? || a.value == "" ==> r == b
  {
    if a.Some? && a.value != "" then a.value else b
  }

  /** `content.trim() === ""` */
  predicate IsBlank(content: string)
  {
    Trim(content) == ""
  }

  /** The operation of a chunk asks for concatenation (`operation === "append"`). */
  predicate IsAppend(operation: Option<string>)
  {
    operation == Some("append")
  }

  /**
   * The last message's content becomes `content` (replace) or its old
   * content followed by `content` (append); an empty list stays empty.
   */
  function UpdateLast(msgs: seq<Message>, content: string, append: bool): (r: seq<Message>)
    ensures |r| == |msgs|
    ensures forall i :: 0 <= i < |msgs| - 1 ==> r[i] == msgs[i]
    ensures msgs != [] ==>
      var last := msgs[|msgs| - 1];
      r[|r| - 1] == last.(content := if append then last.content + content else content)
  {
    if msgs == [] then msgs
    else
      var i := |msgs| - 1;
      var last := msgs[i];
      msgs[i := last.(content := if append then last.content + content else content)]
  }

  /** The last message is dropped when its content is blank; otherwise the list is kept. */
  function RemoveLastIfBlank(msgs: seq<Message>): (r: seq<Message>)
    ensures msgs != [] && IsBlank(msgs[|msgs| - 1].content) ==> r == msgs[..|msgs| - 1]
    ensures msgs == [] || !IsBlank(msgs[|msgs| - 1].content) ==> r == msgs
  {
    if msgs == [] then msgs
    else if IsBlank(msgs[|msgs| - 1].content) then msgs[..|msgs| - 1]
    else msgs
  }

  /** `messages.filter((msg) => msg.content.trim() !== "")` */
  function DropBlank(msgs: seq<Message>): (r: seq<Message>)
    ensures |r| <= |msgs|
    ensures forall m :: m in r <==> m in msgs && !IsBlank(m.content)
  {
    if msgs == [] then []
    else if IsBlank(msgs[0].content) then DropBlank(msgs[1..])
    else [msgs[0]] + DropBlank(msgs[1..])
  }

  /** Dropping blank messages from a list of messages that are all non-blank changes nothing. */
  lemma {:induction false} DropBlankKeepsNonBlank(msgs: seq<Message>)
    requires forall i :: 0 <= i < |msgs| ==> !IsBlank(msgs[i].content)
    ensures DropBlank(msgs) == msgs
  {
    if msgs != [] {
      DropBlankKeepsNonBlank(msgs[1..]);
      assert msgs == [msgs[0]] + msgs[1..];
    }
  }

  /** Filtering distributes over concatenation, so earlier messages keep their order. */
  lemma {:induction false} DropBlankConcat(a: seq<Message>, b: seq<Message>)
    ensures DropBlank(a + b) == DropBlank(a) + DropBlank(b)
  {
    if a == [] {
      assert a + b == b;
    } else {
      assert (a + b)[0] == a[0];
      assert (a + b)[1..] == a[1..] + b;
      DropBlankConcat(a[1..], b);
    }
  }

  /**
   * The chunk rule of `useChatState` and `ChatContainer`: a start chunk
   * drops every blank message and appends itself, with id
   * `streaming-<stamp>`; any other chunk rewrites the last message's
   * content (concatenated for `"append"`, replaced otherwise) and its
   * `chunk_type`, or leaves an empty list alone.  The second component is
   * true when the chunk re-enables input: an end chunk on a non-empty list.
   */
  function ApplyChunk(msgs: seq<Message>, chunk: Message, stamp: string): (r: (seq<Message>, bool))
  {
    if chunk.chunkType == Some(MessageStart) then
      (DropBlank(msgs) + [chunk.(id := Some("streaming-" + stamp))], false)
    else if msgs != [] then
      var i := |msgs| - 1;
      var last := msgs[i];
      var content := if IsAppend(chunk.operation) then last.content + chunk.content else chunk.content;
      (msgs[i := last.(content := content, chunkType := chunk.chunkType)], chunk.chunkType == Some(MessageEnd))
    else (msgs, false)
  }

  /** What the shared chunk rule does, case by case. */
  lemma ApplyChunkRule(msgs: seq<Message>, chunk: Message, stamp: string)
    ensures var (r, enable) := ApplyChunk(msgs, chunk, stamp);
      && (chunk.chunkType == Some(MessageStart) ==>
            && r[..|r| - 1] == DropBlank(msgs)
            && r[|r| - 1] == chunk.(id := Some("streaming-" + stamp))
            && forall m :: m in r[..|r| - 1] ==> !IsBlank(m.content))
      && (chunk.chunkType != Some(MessageStart) && msgs == [] ==> r == [])
      && (chunk.chunkType != Some(MessageStart) && msgs != [] ==>
            && |r| == |msgs|
            && r[..|r| - 1] == msgs[..|msgs| - 1]
            && r[|r| - 1].content
                 == (if IsAppend(chunk.operation) then msgs[|msgs| - 1].content + chunk.content else chunk.content)
            && r[|r| - 1].chunkType == chunk.chunkType
            && r[|r| - 1].role == msgs[|msgs| - 1].role
            && r[|r| - 1].id == msgs[|msgs| - 1].id)
      && (enable <==> chunk.chunkType == Some(MessageEnd) && msgs != [])
  {
    var (r, _) := ApplyChunk(msgs, chunk, stamp);
    if chunk.chunkType == Some(MessageStart) {
      assert r[..|r| - 1] == DropBlank(msgs);
    }
  }
}
