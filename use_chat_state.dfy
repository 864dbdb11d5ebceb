/**
 * The `useChatState` hook of useChatState.ts: a message list, the input
 * box's value and its disabled flag, changed by the operations the Shiny
 * side and the input box call.
 */
module UseChatState {
  import opened Common
  import opened ChatTypes

  datatype HookState = HookState(messages: seq<Message>, inputValue: string, inputDisabled: bool)

  /** What `updateUserInput` receives; only `value` has an effect here. */
  datatype UpdateUserInput = UpdateUserInput(value: Option<string>, placeholder: Option<string>,
                                             submit: Option<bool>, focus: Option<bool>)

  /** `appendMessage`: the message goes last and input is re-enabled. */
  function AppendStep(s: HookState, m: Message): HookState
  {
    s.(messages := s.messages + [m], inputDisabled := false)
  }

  /** `appendMessageChunk`: the shared chunk rule; an end chunk on a non-empty list re-enables input. */
  function ChunkStep(s: HookState, chunk: Message, stamp: string): HookState
  {
    var (msgs, enable) := ApplyChunk(s.messages, chunk, stamp);
    s.(messages := msgs, inputDisabled := if enable then false else s.inputDisabled)
  }

  /** `clearMessages`: no messages, input enabled. */
  function ClearStep(s: HookState): HookState
  {
    s.(messages := [], inputDisabled := false)
  }

  /** `removeLoadingMessage`: every blank message is dropped and input is enabled. */
  function RemoveLoadingStep(s: HookState): HookState
  {
    s.(messages := DropBlank(s.messages), inputDisabled := false)
  }

  function UpdateUserInputStep(s: HookState, u: UpdateUserInput): HookState
  {
    if u.value.Some? then s.(inputValue := u.value.value) else s
  }

  /** The user's message, id `user-<stamp>`. */
  function UserMessage(value: string, stamp: string): Message
  {
    Plain(value, User, None).(id := Some("user-" + stamp))
  }

  /** The loading message, id `loading-<stamp>`. */
  function LoadingMessage(stamp: string): Message
  {
    Plain("", Assistant, None).(id := Some("loading-" + stamp))
  }

  /**
   * `handleInputSent`: with an `onSendMessage` callback the user's message
   * only goes to it; otherwise it is appended, followed by an empty
   * assistant message.  Either way the box is cleared and disabled.  The
   * two ids come from two readings of the clock, `userStamp` and
   * `loadingStamp`.
   */
  function InputSentStep(s: HookState, value: string, hasOnSendMessage: bool, userStamp: string, loadingStamp: string)
    : HookState
  {
    var messages := if hasOnSendMessage then s.messages
                    else s.messages + [UserMessage(value, userStamp), LoadingMessage(loadingStamp)];
    HookState(messages, "", true)
  }

  class ChatStateHook {
    var messages: seq<Message>
    var inputValue: string
    var inputDisabled: bool

    function State(): HookState
      reads this
    {
      HookState(messages, inputValue, inputDisabled)
    }

    constructor (initialMessages: seq<Message>)
      ensures State() == HookState(initialMessages, "", false)
    {
      messages := initialMessages;
      inputValue := "";
      inputDisabled := false;
    }

    method AppendMessage(m: Message)
      modifies this
      ensures State() == AppendStep(old(State()), m)
    {
      messages := messages + [m];
      inputDisabled := false;
    }

    method AppendMessageChunk(chunk: Message, stamp: string)
      modifies this
      ensures State() == ChunkStep(old(State()), chunk, stamp)
    {
      if chunk.chunkType == Some(MessageStart) {
        messages := DropBlank(messages) + [chunk.(id := Some("streaming-" + stamp))];
        return;
      }
      if |messages| > 0 {
        var lastIndex := |messages| - 1;
        var last := messages[lastIndex];
        var content := if IsAppend(chunk.operation) then last.content + chunk.content else chunk.content;
        messages := messages[lastIndex := last.(content := content, chunkType := chunk.chunkType)];
        if chunk.chunkType == Some(MessageEnd) {
          inputDisabled := false;
        }
      }
    }

    method ClearMessages()
      modifies this
      ensures State() == ClearStep(old(State()))
    {
      messages := [];
      inputDisabled := false;
    }

    method RemoveLoadingMessage()
      modifies this
      ensures State() == RemoveLoadingStep(old(State()))
    {
      messages := DropBlank(messages);
      inputDisabled := false;
    }

    method UpdateUserInputs(u: UpdateUserInput)
      modifies this
      ensures State() == UpdateUserInputStep(old(State()), u)
    {
      if u.value.Some? {
        inputValue := u.value.value;
      }
    }

    /** Returns the message handed to `onSendMessage`, if there is a callback. */
    method HandleInputSent(value: string, hasOnSendMessage: bool, userStamp: string, loadingStamp: string)
      returns (notified: Option<Message>)
      modifies this
      ensures State() == InputSentStep(old(State()), value, hasOnSendMessage, userStamp, loadingStamp)
      ensures notified == if hasOnSendMessage then Some(UserMessage(value, userStamp)) else None
    {
      var userMessage := UserMessage(value, userStamp);
      if hasOnSendMessage {
        notified := Some(userMessage);
      } else {
        notified := None;
        AppendMessage(userMessage);
        messages := messages + [LoadingMessage(loadingStamp)];
      }
      inputValue := "";
      inputDisabled := true;
    }
  }

  /** `appendMessage` keeps the earlier messages, adds one at the end and re-enables input. */
  lemma AppendStepRule(s: HookState, m: Message)
    ensures var r := AppendStep(s, m);
            && r.messages[..|s.messages|] == s.messages && r.messages[|s.messages|] == m
            && |r.messages| == |s.messages| + 1
            && !r.inputDisabled && r.inputValue == s.inputValue
  {
    assert AppendStep(s, m).messages[..|s.messages|] == s.messages;
  }

  /**
   * A chunk other than a start never changes the number of messages or
   * any message but the last; on an empty list it changes nothing at
   * all; input is re-enabled only by an end chunk.
   */
  lemma ChunkStepRule(s: HookState, chunk: Message, stamp: string)
    ensures var r := ChunkStep(s, chunk, stamp);
            && r.inputValue == s.inputValue
            && (chunk.chunkType == Some(MessageStart) ==>
                  && r.messages == DropBlank(s.messages) + [chunk.(id := Some("streaming-" + stamp))]
                  && r.inputDisabled == s.inputDisabled)
            && (chunk.chunkType != Some(MessageStart) && s.messages == [] ==> r == s)
            && (chunk.chunkType != Some(MessageStart) && s.messages != [] ==>
                  && |r.messages| == |s.messages|
                  && r.messages[..|r.messages| - 1] == s.messages[..|s.messages| - 1]
                  && r.messages[|r.messages| - 1].chunkType == chunk.chunkType
                  && r.messages[|r.messages| - 1].content
                       == (if IsAppend(chunk.operation) then s.messages[|s.messages| - 1].content + chunk.content
                           else chunk.content))
            && (!r.inputDisabled <==> !s.inputDisabled || (chunk.chunkType == Some(MessageEnd) && s.messages != []))
  {
    ApplyChunkRule(s.messages, chunk, stamp);
  }

  /** `removeLoadingMessage` leaves no blank message, keeps every other one, and enables input. */
  lemma RemoveLoadingStepRule(s: HookState)
    ensures var r := RemoveLoadingStep(s);
            && (forall m :: m in r.messages <==> m in s.messages && !IsBlank(m.content))
            && !r.inputDisabled && r.inputValue == s.inputValue
  {
  }

  /**
   * `handleInputSent` always clears and disables the box; it appends the
   * user's message and an empty assistant message exactly when there is
   * no `onSendMessage` callback.
   */
  lemma InputSentStepRule(s: HookState, value: string, hasOnSendMessage: bool, userStamp: string, loadingStamp: string)
    ensures var r := InputSentStep(s, value, hasOnSendMessage, userStamp, loadingStamp);
            && r.inputValue == "" && r.inputDisabled
            && (hasOnSendMessage ==> r.messages == s.messages)
            && (!hasOnSendMessage ==>
                  && r.messages == s.messages + [UserMessage(value, userStamp), LoadingMessage(loadingStamp)]
                  && r.messages[|r.messages| - 1].content == "" && r.messages[|r.messages| - 1].role == Assistant
                  && r.messages[|s.messages|].content == value && r.messages[|s.messages|].role == User)
  {
  }
}
