/**
 * The reducer-based chat client of components-improved.tsx: `chatReducer`
 * is a pure function from state and action to state, and `ChatApp`'s
 * event handlers are sequences of actions dispatched one after another.
 */
module ChatReducer {
  import opened Common
  import opened ChatTypes

  datatype ChatState = ChatState(messages: seq<Message>, inputDisabled: bool, placeholder: string, iconAssistant: string)

  datatype ChatAction =
    | AddMessage(payload: Message)
    | UpdateLastMessage(content: string, operation: string)
    | RemoveLoadingMessage
    | SetInputDisabled(disabled: bool)
    | SetPlaceholder(placeholder: string)
    | ClearMessages
    | SetMessageStreaming(id: string, streaming: bool)
      /** an action of any other `type` */
    | Unrecognised(actionType: string)

  const DefaultPlaceholder: string := "Enter a message..."

  /**
   * The `REMOVE_LOADING_MESSAGE` filter: a message is dropped when its
   * index is the last one (`total - 1`) and its content is blank; `offset`
   * is the index of `msgs[0]` in the whole list.
   */
  function FilterLoading(msgs: seq<Message>, offset: nat, total: nat): (r: seq<Message>)
    ensures |r| <= |msgs|
    decreases |msgs|
  {
    if msgs == [] then []
    else
      var keep := !(offset == total - 1 && IsBlank(msgs[0].content));
      (if keep then [msgs[0]] else []) + FilterLoading(msgs[1..], offset + 1, total)
  }

  /** `messages.map(...)`: the messages with the given id get the new `streaming` flag. */
  function MarkStreaming(msgs: seq<Message>, id: string, streaming: bool): (r: seq<Message>)
    ensures |r| == |msgs|
    ensures forall i :: 0 <= i < |msgs| ==>
              r[i] == if msgs[i].id == Some(id) then msgs[i].(streaming := Some(streaming)) else msgs[i]
  {
    if msgs == [] then []
    else
      var m := msgs[0];
      [if m.id == Some(id) then m.(streaming := Some(streaming)) else m] + MarkStreaming(msgs[1..], id, streaming)
  }

  /**
   * `chatReducer`.  `now` is `Date.now()`, used for the id of a message
   * added without one.
   */
  function Reduce(state: ChatState, action: ChatAction, now: string): ChatState
  {
    match action
    case AddMessage(payload) =>
      state.(messages := state.messages + [payload.(id := Some(OrElse(payload.id, "msg-" + now)))],
             inputDisabled := true)
    case UpdateLastMessage(content, operation) =>
      if |state.messages| == 0 then state
      else state.(messages := UpdateLast(state.messages, content, operation == "append"))
    case RemoveLoadingMessage =>
      state.(messages := FilterLoading(state.messages, 0, |state.messages|))
    case SetInputDisabled(disabled) => state.(inputDisabled := disabled)
    case SetPlaceholder(placeholder) => state.(placeholder := placeholder)
    case ClearMessages => state.(messages := [])
    case SetMessageStreaming(id, streaming) => state.(messages := MarkStreaming(state.messages, id, streaming))
    case Unrecognised(_) => state
  }

  /** The state after dispatching `actions` in order. */
  function Run(state: ChatState, actions: seq<ChatAction>, now: string): ChatState
    decreases |actions|
  {
    if actions == [] then state else Run(Reduce(state, actions[0], now), actions[1..], now)
  }

  lemma RunOne(s: ChatState, a: ChatAction, now: string)
    ensures Run(s, [a], now) == Reduce(s, a, now)
  {
    assert [a][1..] == [];
  }

  lemma RunTwo(s: ChatState, a: ChatAction, b: ChatAction, now: string)
    ensures Run(s, [a, b], now) == Reduce(Reduce(s, a, now), b, now)
  {
    assert [a, b][1..] == [b];
    RunOne(Reduce(s, a, now), b, now);
  }

  /** The reducer's filter drops exactly what removing a blank last message drops. */
  lemma {:induction false} FilterLoadingIsRemoveLastIfBlank(msgs: seq<Message>, offset: nat)
    ensures FilterLoading(msgs, offset, offset + |msgs|) == RemoveLastIfBlank(msgs)
    decreases |msgs|
  {
    if |msgs| == 1 {
      assert msgs[1..] == [];
      assert msgs[..0] == [];
      assert [msgs[0]] + [] == msgs;
    } else if |msgs| > 1 {
      var total := offset + |msgs|;
      FilterLoadingIsRemoveLastIfBlank(msgs[1..], offset + 1);
      assert msgs[1..][|msgs| - 2] == msgs[|msgs| - 1];
      assert msgs == [msgs[0]] + msgs[1..];
      assert msgs[..|msgs| - 1] == [msgs[0]] + msgs[1..][..|msgs| - 2];
    }
  }

  /** `ADD_MESSAGE` appends at the end, keeps the earlier messages in order, and disables input. */
  lemma AddMessageRule(s: ChatState, m: Message, now: string)
    ensures var r := Reduce(s, AddMessage(m), now);
            && |r.messages| == |s.messages| + 1
            && r.messages[..|s.messages|] == s.messages
            && r.messages[|s.messages|] == m.(id := r.messages[|s.messages|].id)
            && (m.id.Some? && m.id.value != "" ==> r.messages[|s.messages|].id == m.id)
            && (m.id.None? || m.id.value == "" ==> r.messages[|s.messages|].id == Some("msg-" + now))
            && r.inputDisabled
            && r.placeholder == s.placeholder && r.iconAssistant == s.iconAssistant
  {
    var r := Reduce(s, AddMessage(m), now);
    assert r.messages[..|s.messages|] == s.messages;
  }

  /**
   * `UPDATE_LAST_MESSAGE` returns the same state for an empty list;
   * otherwise only the last message's content changes.
   */
  lemma UpdateLastMessageRule(s: ChatState, content: string, operation: string, now: string)
    ensures var r := Reduce(s, UpdateLastMessage(content, operation), now);
            && (s.messages == [] ==> r == s)
            && |r.messages| == |s.messages|
            && (forall i :: 0 <= i < |s.messages| - 1 ==> r.messages[i] == s.messages[i])
            && (s.messages != [] ==>
                  var last := s.messages[|s.messages| - 1];
                  r.messages[|r.messages| - 1]
                    == last.(content := if operation == "append" then last.content + content else content))
            && r == s.(messages := r.messages)
  {
  }

  /** `REMOVE_LOADING_MESSAGE` drops at most one message: the last, and only when it is blank. */
  lemma RemoveLoadingMessageRule(s: ChatState, now: string)
    ensures var r := Reduce(s, RemoveLoadingMessage, now);
            && r == s.(messages := r.messages)
            && (s.messages != [] && IsBlank(s.messages[|s.messages| - 1].content) ==>
                  r.messages == s.messages[..|s.messages| - 1])
            && (s.messages == [] || !IsBlank(s.messages[|s.messages| - 1].content) ==> r == s)
  {
    FilterLoadingIsRemoveLastIfBlank(s.messages, 0);
  }

  /** The three field setters change only their own field. */
  lemma SettersChangeOneField(s: ChatState, disabled: bool, placeholder: string, now: string)
    ensures Reduce(s, SetInputDisabled(disabled), now) == s.(inputDisabled := disabled)
    ensures Reduce(s, SetPlaceholder(placeholder), now) == s.(placeholder := placeholder)
    ensures Reduce(s, ClearMessages, now) == s.(messages := [])
  {
  }

  /**
   * `SET_MESSAGE_STREAMING` keeps the length, the order and every field
   * but `streaming`; only messages with the id get the flag.
   */
  lemma SetMessageStreamingRule(s: ChatState, id: string, streaming: bool, now: string)
    ensures var r := Reduce(s, SetMessageStreaming(id, streaming), now);
            && r == s.(messages := r.messages)
            && |r.messages| == |s.messages|
            && (forall i :: 0 <= i < |s.messages| ==>
                  r.messages[i].(streaming := s.messages[i].streaming) == s.messages[i])
            && (forall i :: 0 <= i < |s.messages| ==>
                  r.messages[i].streaming == if s.messages[i].id == Some(id) then Some(streaming) else s.messages[i].streaming)
  {
  }

  /** An action of any other type returns the state unchanged. */
  lemma UnrecognisedUnchanged(s: ChatState, actionType: string, now: string)
    ensures Reduce(s, Unrecognised(actionType), now) == s
  {
  }

  // ---------------------------------------------------------------
  // ChatApp's handlers

  /** The id `appendMessage` gives a message: `msg-<Date.now()>-<nine random base-36 digits>`. */
  function FreshId(time: string, random: string): (r: string)
    ensures |r| >= 4 && r[..4] == "msg-"
  {
    "msg-" + time + "-" + random
  }

  /** `appendMessage`: the message is added with a fresh id. */
  function AppendActions(m: Message, time: string, random: string): seq<ChatAction>
  {
    [AddMessage(m.(id := Some(FreshId(time, random))))]
  }

  /** The empty assistant markdown message added while a reply is awaited. */
  function LoadingMessage(): (m: Message)
    ensures m.content == "" && m.role == Assistant && m.contentType == Some("markdown")
  {
    Plain("", Assistant, Some("markdown"))
  }

  /**
   * `handleAppendChunk`: a start chunk is appended as a new message and
   * nothing else happens; otherwise the last message is updated
   * (`operation || "replace"`), and an end chunk then re-enables input.
   */
  function AppendChunkActions(m: Message, time: string, random: string): seq<ChatAction>
  {
    if m.chunkType == Some(MessageStart) then AppendActions(m, time, random)
    else
      [UpdateLastMessage(m.content, OrElse(m.operation, "replace"))]
      + (if m.chunkType == Some(MessageEnd) then [SetInputDisabled(false)] else [])
  }

  /** `onInputSent`: the user's text as semi-markdown, then the loading message. */
  function InputSentActions(content: string, time: string, random1: string, random2: string): seq<ChatAction>
  {
    AppendActions(Plain(content, User, Some("semi-markdown")), time, random1)
    + AppendActions(LoadingMessage(), time, random2)
  }

  /** `handleRemoveLoadingMessage` */
  function RemoveLoadingActions(): seq<ChatAction>
  {
    [RemoveLoadingMessage, SetInputDisabled(false)]
  }

  /** The component's state, held by `useReducer`; `time` stands for `Date.now()` and `random` for the random digits. */
  class ChatApp {
    const id: string
    var state: ChatState
    /** the `Shiny.setInputValue` calls, oldest first */
    var shinyInputs: seq<(string, string)>

    constructor (id: string, iconAssistant: string)
      ensures this.id == id
      ensures state == ChatState([], false, DefaultPlaceholder, iconAssistant)
      ensures shinyInputs == []
    {
      this.id := id;
      state := ChatState([], false, DefaultPlaceholder, iconAssistant);
      shinyInputs := [];
    }

    method Dispatch(action: ChatAction, time: string)
      modifies this
      ensures state == Reduce(old(state), action, time)
      ensures shinyInputs == old(shinyInputs)
    {
      state := Reduce(state, action, time);
    }

    method AppendMessage(m: Message, time: string, random: string)
      modifies this
      ensures state == Run(old(state), AppendActions(m, time, random), time)
      ensures shinyInputs == old(shinyInputs)
    {
      Dispatch(AddMessage(m.(id := Some(FreshId(time, random)))), time);
      RunOne(old(state), AddMessage(m.(id := Some(FreshId(time, random)))), time);
    }

    method HandleAppendChunk(m: Message, time: string, random: string)
      modifies this
      ensures state == Run(old(state), AppendChunkActions(m, time, random), time)
      ensures shinyInputs == old(shinyInputs)
    {
      if m.chunkType == Some(MessageStart) {
        AppendMessage(m, time, random);
        return;
      }
      var update := UpdateLastMessage(m.content, OrElse(m.operation, "replace"));
      Dispatch(update, time);
      if m.chunkType == Some(MessageEnd) {
        Dispatch(SetInputDisabled(false), time);
        RunTwo(old(state), update, SetInputDisabled(false), time);
      } else {
        RunOne(old(state), update, time);
      }
    }

    /** `onInputSent`, which also passes the text to Shiny when Shiny is present. */
    method OnInputSent(content: string, time: string, random1: string, random2: string, shinyPresent: bool)
      modifies this
      ensures state == Run(old(state), InputSentActions(content, time, random1, random2), time)
      ensures shinyInputs == old(shinyInputs) + (if shinyPresent then [(id + "-input", content)] else [])
    {
      AppendMessage(Plain(content, User, Some("semi-markdown")), time, random1);
      AppendMessage(LoadingMessage(), time, random2);
      RunTwo(old(state), AddMessage(Plain(content, User, Some("semi-markdown")).(id := Some(FreshId(time, random1)))),
             AddMessage(LoadingMessage().(id := Some(FreshId(time, random2)))), time);
      RunOne(old(state), AddMessage(Plain(content, User, Some("semi-markdown")).(id := Some(FreshId(time, random1)))), time);
      if shinyPresent {
        shinyInputs := shinyInputs + [(id + "-input", content)];
      }
    }

    method HandleRemoveLoadingMessage(time: string)
      modifies this
      ensures state == Run(old(state), RemoveLoadingActions(), time)
      ensures shinyInputs == old(shinyInputs)
    {
      Dispatch(RemoveLoadingMessage, time);
      Dispatch(SetInputDisabled(false), time);
      RunTwo(old(state), RemoveLoadingMessage, SetInputDisabled(false), time);
    }
  }

  /**
   * A start chunk adds one message and leaves input disabled; any other
   * chunk keeps the list length and every message but the last, and
   * re-enables input exactly when it is an end chunk.
   */
  lemma AppendChunkRule(s: ChatState, m: Message, time: string, random: string)
    ensures var r := Run(s, AppendChunkActions(m, time, random), time);
            && (m.chunkType == Some(MessageStart) ==>
                  && |r.messages| == |s.messages| + 1
                  && r.messages[..|s.messages|] == s.messages
                  && r.messages[|s.messages|] == m.(id := Some(FreshId(time, random)))
                  && r.inputDisabled)
            && (m.chunkType != Some(MessageStart) ==>
                  && |r.messages| == |s.messages|
                  && (forall i :: 0 <= i < |s.messages| - 1 ==> r.messages[i] == s.messages[i])
                  && (s.messages != [] ==>
                        r.messages[|r.messages| - 1].content
                          == (if IsAppend(m.operation) then s.messages[|s.messages| - 1].content + m.content
                              else m.content))
                  && r.inputDisabled == (if m.chunkType == Some(MessageEnd) then false else s.inputDisabled))
            && r.placeholder == s.placeholder
  {
    if m.chunkType == Some(MessageStart) {
      var a := AddMessage(m.(id := Some(FreshId(time, random))));
      RunOne(s, a, time);
      AddMessageRule(s, m.(id := Some(FreshId(time, random))), time);
    } else {
      var op := OrElse(m.operation, "replace");
      assert op == "append" <==> IsAppend(m.operation);
      UpdateLastMessageRule(s, m.content, op, time);
      if m.chunkType == Some(MessageEnd) {
        RunTwo(s, UpdateLastMessage(m.content, op), SetInputDisabled(false), time);
      } else {
        RunOne(s, UpdateLastMessage(m.content, op), time);
      }
    }
  }

  /** Submitting input adds exactly two messages: the user text as semi-markdown, then the loading message. */
  lemma InputSentAddsTwo(s: ChatState, content: string, time: string, random1: string, random2: string)
    ensures var r := Run(s, InputSentActions(content, time, random1, random2), time);
            && |r.messages| == |s.messages| + 2
            && r.messages[..|s.messages|] == s.messages
            && r.messages[|s.messages|] == Plain(content, User, Some("semi-markdown")).(id := Some(FreshId(time, random1)))
            && r.messages[|s.messages| + 1] == LoadingMessage().(id := Some(FreshId(time, random2)))
            && r.inputDisabled
  {
    var m1 := Plain(content, User, Some("semi-markdown")).(id := Some(FreshId(time, random1)));
    var m2 := LoadingMessage().(id := Some(FreshId(time, random2)));
    var s1 := Reduce(s, AddMessage(m1), time);
    AddMessageRule(s, m1, time);
    AddMessageRule(s1, m2, time);
    RunTwo(s, AddMessage(m1), AddMessage(m2), time);
    assert InputSentActions(content, time, random1, random2) == [AddMessage(m1), AddMessage(m2)];
    var r := Reduce(s1, AddMessage(m2), time);
    assert r.messages[..|s.messages|] == s1.messages[..|s.messages|];
  }
}
