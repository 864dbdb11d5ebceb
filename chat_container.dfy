/**
 * The Preact `ChatContainer` of ChatContainer.tsx: which message list is
 * shown, the message operations it exposes, and the suggestion rules (a
 * click or Enter/Space on a suggestion fills in or submits the input).
 */
module ChatContainer {
  import opened Common
  import opened ChatTypes
  import UseChatState

  /** The list shown: the `messages` prop when it is non-empty, otherwise the component's own. */
  function Displayed(external: seq<Message>, internal: seq<Message>): (r: seq<Message>)
    ensures external != [] ==> r == external
    ensures external == [] ==> r == internal
  {
    if |external| > 0 then external else internal
  }

  // ---------------------------------------------------------------
  // Suggestions

  /** An element on the way up from the event target: its classes and `data-suggestion*` attributes. */
  datatype SuggestionElement = SuggestionElement(
    classes: set<string>,
    dataSuggestion: Option<string>,
    dataSuggestionSubmit: Option<string>,
    textContent: string)

  /** Matches the selector `.suggestion, [data-suggestion]`. */
  predicate MatchesSuggestion(el: SuggestionElement)
  {
    "suggestion" in el.classes || el.dataSuggestion.Some?
  }

  /** `closest(".suggestion, [data-suggestion]")` over the target and its ancestors, nearest first. */
  function Closest(path: seq<SuggestionElement>): (r: Option<nat>)
    ensures r.Some? ==> r.value < |path| && MatchesSuggestion(path[r.value])
                        && forall i :: 0 <= i < r.value ==> !MatchesSuggestion(path[i])
    ensures r.None? ==> forall i :: 0 <= i < |path| ==> !MatchesSuggestion(path[i])
  {
    if path == [] then None
    else if MatchesSuggestion(path[0]) then Some(0)
    else match Closest(path[1..])
      case None => None
      case Some(k) => Some(k + 1)
  }

  /** `{ suggestion, submit }`; both absent for `{}`. */
  datatype Suggestion = Suggestion(suggestion: Option<string>, submit: Option<bool>)

  /** The element asks to be submitted: class `submit`, or `data-suggestion-submit` empty or `"true"`. */
  predicate AsksSubmit(el: SuggestionElement)
  {
    "submit" in el.classes || el.dataSuggestionSubmit == Some("") || el.dataSuggestionSubmit == Some("true")
  }

  /**
   * `getSuggestion`: `target` is `None` when the event target is not an
   * HTML element, otherwise the target and its ancestors.
   */
  function GetSuggestion(target: Option<seq<SuggestionElement>>): (r: Suggestion)
    ensures target.None? ==> r == Suggestion(None, None)
    ensures target.Some? && (forall i :: 0 <= i < |target.value| ==> !MatchesSuggestion(target.value[i])) ==>
              r == Suggestion(None, None)
    ensures target.Some? && Closest(target.value).Some? ==>
              var el := target.value[Closest(target.value).value];
              && (el.dataSuggestion.Some? && el.dataSuggestion.value != "" ==> r.suggestion == el.dataSuggestion)
              && (el.dataSuggestion.None? || el.dataSuggestion.value == "" ==>
                    r.suggestion == if el.textContent == "" then None else Some(el.textContent))
              && (r.submit == Some(true) <==>
                    "submit" in el.classes || el.dataSuggestionSubmit == Some("") || el.dataSuggestionSubmit == Some("true"))
  {
    if target.None? then Suggestion(None, None)
    else match Closest(target.value)
      case None => Suggestion(None, None)
      case Some(k) =>
        var el := target.value[k];
        if !MatchesSuggestion(el) then Suggestion(None, None)
        else
          var text := OrElse(el.dataSuggestion, el.textContent);
          Suggestion(if text == "" then None else Some(text), Some(AsksSubmit(el)))
  }

  /** Cmd/Ctrl forces submission, otherwise Alt forces none, otherwise the element's own wish (default no). */
  function ShouldSubmit(metaKey: bool, ctrlKey: bool, altKey: bool, submit: Option<bool>): (r: bool)
    ensures metaKey || ctrlKey ==> r
    ensures !metaKey && !ctrlKey && altKey ==> !r
    ensures !metaKey && !ctrlKey && !altKey ==> (r <==> submit == Some(true))
  {
    if metaKey || ctrlKey then true else if altKey then false else submit == Some(true)
  }

  /** Keyboard activation reacts only to Enter and Space. */
  predicate IsActivationKey(key: string)
  {
    key == "Enter" || key == " "
  }

  /** What a suggestion event leads to. */
  datatype SuggestionOutcome =
    | Ignored
      /** `onSuggestionClick(suggestion, submit)` */
    | Clicked(suggestion: string, submit: bool)
      /** the textarea's `setInputValue(suggestion, { submit, focus })` */
    | InputSet(suggestion: string, submit: bool, focus: bool)
      /** the default is prevented but no one takes the suggestion */
    | Unhandled

  datatype Modifiers = Modifiers(metaKey: bool, ctrlKey: bool, altKey: bool)

  /**
   * `handleSuggestionEvent`.  The click and keydown handlers that call it
   * are memoised with no dependencies, so `hasOnSuggestionClick` is
   * whether the first render had an `onSuggestionClick` prop.
   */
  function SuggestionEvent(target: Option<seq<SuggestionElement>>, mods: Modifiers,
                           hasOnSuggestionClick: bool, textareaCanSet: bool): (r: SuggestionOutcome)
    ensures GetSuggestion(target).suggestion.None? <==> r == Ignored
    ensures r.Clicked? ==> hasOnSuggestionClick
    ensures r.InputSet? ==> !hasOnSuggestionClick && textareaCanSet && r.focus == !r.submit
  {
    var s := GetSuggestion(target);
    if s.suggestion.None? then Ignored
    else
      var submit := ShouldSubmit(mods.metaKey, mods.ctrlKey, mods.altKey, s.submit);
      if hasOnSuggestionClick then Clicked(s.suggestion.value, submit)
      else if textareaCanSet then InputSet(s.suggestion.value, submit, !submit)
      else Unhandled
  }

  /** `handleSuggestionKeydown`: any key but Enter and Space is ignored. */
  function SuggestionKeydown(key: string, target: Option<seq<SuggestionElement>>, mods: Modifiers,
                             hasOnSuggestionClick: bool, textareaCanSet: bool): (r: SuggestionOutcome)
    ensures !IsActivationKey(key) ==> r == Ignored
    ensures IsActivationKey(key) ==> r == SuggestionEvent(target, mods, hasOnSuggestionClick, textareaCanSet)
  {
    if !IsActivationKey(key) then Ignored
    else SuggestionEvent(target, mods, hasOnSuggestionClick, textareaCanSet)
  }

  /** A modifier-free click on a suggestion that asks to be submitted submits it without focusing the box. */
  lemma SubmitSuggestionClick(path: seq<SuggestionElement>, k: nat, textareaCanSet: bool)
    requires Closest(path) == Some(k)
    requires path[k].dataSuggestion.Some? && path[k].dataSuggestion.value != ""
    requires "submit" in path[k].classes
    ensures SuggestionEvent(Some(path), Modifiers(false, false, false), false, textareaCanSet)
            == if textareaCanSet then InputSet(path[k].dataSuggestion.value, true, false) else Unhandled
  {
  }

  // ---------------------------------------------------------------
  // The component's own state

  /**
   * `handleInputSent`: with external messages the user's message only
   * goes to `onSendMessage`; otherwise it and a loading message are
   * appended.  Input ends disabled.
   */
  function InputSentStep(s: UseChatState.HookState, external: seq<Message>, value: string, stamp: string)
    : UseChatState.HookState
  {
    var messages := if |external| > 0 then s.messages
                    else s.messages + [Plain(value, User, None), UseChatState.LoadingMessage(stamp)];
    s.(messages := messages, inputDisabled := true)
  }

  class Container {
    /** the `messages` prop */
    const external: seq<Message>
    var internalMessages: seq<Message>
    var inputDisabled: bool
    var inputValue: string

    function State(): UseChatState.HookState
      reads this
    {
      UseChatState.HookState(internalMessages, inputValue, inputDisabled)
    }

    function Messages(): seq<Message>
      reads this
    {
      Displayed(external, internalMessages)
    }

    constructor (external: seq<Message>, disabled: bool)
      ensures this.external == external
      ensures State() == UseChatState.HookState([], "", disabled)
    {
      this.external := external;
      internalMessages := [];
      inputDisabled := disabled;
      inputValue := "";
    }

    method AppendMessage(m: Message)
      modifies this
      ensures State() == UseChatState.AppendStep(old(State()), m)
    {
      internalMessages := internalMessages + [m];
      inputDisabled := false;
    }

    method AppendMessageChunk(chunk: Message, stamp: string)
      modifies this
      ensures State() == UseChatState.ChunkStep(old(State()), chunk, stamp)
    {
      if chunk.chunkType == Some(MessageStart) {
        internalMessages := DropBlank(internalMessages) + [chunk.(id := Some("streaming-" + stamp))];
        return;
      }
      if |internalMessages| > 0 {
        var lastIndex := |internalMessages| - 1;
        var last := internalMessages[lastIndex];
        var content := if IsAppend(chunk.operation) then last.content + chunk.content else chunk.content;
        internalMessages := internalMessages[lastIndex := last.(content := content, chunkType := chunk.chunkType)];
        if chunk.chunkType == Some(MessageEnd) {
          inputDisabled := false;
        }
      }
    }

    /** `clearMessages` empties the list but, unlike the hook's, leaves the input as it is. */
    method ClearMessages()
      modifies this
      ensures State() == old(State()).(messages := [])
    {
      internalMessages := [];
    }

    method RemoveLoadingMessage()
      modifies this
      ensures State() == UseChatState.RemoveLoadingStep(old(State()))
    {
      internalMessages := DropBlank(internalMessages);
      inputDisabled := false;
    }

    /** Returns the message handed to `onSendMessage` (`None` when there is no callback or no external list). */
    method HandleInputSent(value: string, stamp: string, hasOnSendMessage: bool) returns (notified: Option<Message>)
      modifies this
      ensures State() == InputSentStep(old(State()), external, value, stamp)
      ensures notified == if |external| > 0 && hasOnSendMessage then Some(Plain(value, User, None)) else None
    {
      var userMessage := Plain(value, User, None);
      notified := None;
      if |external| > 0 {
        if hasOnSendMessage {
          notified := Some(userMessage);
        }
      } else {
        internalMessages := internalMessages + [userMessage];
        internalMessages := internalMessages + [UseChatState.LoadingMessage(stamp)];
      }
      inputDisabled := true;
    }
  }

  /** While an external list is given, the component's own operations never change what is shown. */
  lemma ExternalListWins(external: seq<Message>, internal: seq<Message>, internal': seq<Message>)
    requires external != []
    ensures Displayed(external, internal) == Displayed(external, internal')
  {
  }

  /** Sending input with no external list shows the user's message and a loading message after the old ones. */
  lemma InputSentShowsTwo(s: UseChatState.HookState, value: string, stamp: string)
    ensures var r := InputSentStep(s, [], value, stamp);
            && Displayed([], r.messages) == s.messages + [Plain(value, User, None), UseChatState.LoadingMessage(stamp)]
            && r.inputDisabled && r.inputValue == s.inputValue
  {
  }
}
