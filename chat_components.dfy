/**
 * The React chat client of components.tsx: its own content conversion
 * (text is passed through as it is), the streaming dot of its
 * `MarkdownStream` (a fresh copy of the dot is appended each time, after
 * the old one is removed), the message icon, the input box's send rules,
 * and the message list of `ChatApp` with the events that drive it.
 */
module ChatComponents {
  import opened Common
  import opened Dom
  import opened Host
  import opened ChatTypes
  import StreamingLocator
  import MarkdownRenderer
  import Utils

  // ---------------------------------------------------------------
  // Content conversion

  /**
   * `contentToHTML`: markdown and semi-markdown are parsed with their
   * renderer and sanitized, html is sanitized, text is returned as it is,
   * and any other type throws.
   */
  function ContentToHtml(env: Env, content: string, contentType: string): (r: Result<string, string>)
    ensures contentType == "markdown" ==>
              r == Ok(env.purify(env.parse(content, MarkdownRenderer.MarkdownRendererHooks)))
    ensures contentType == "semi-markdown" ==>
              r == Ok(env.purify(env.parse(content, MarkdownRenderer.SemiMarkdownRendererHooks)))
    ensures contentType == "html" ==> r == Ok(env.purify(content))
    ensures contentType == "text" ==> r == Ok(content)
    ensures r.Err? <==> contentType !in {"markdown", "semi-markdown", "html", "text"}
    ensures r.Err? ==> r.error == "Unknown content type: " + contentType
  {
    if contentType == "markdown" then
      Ok(Utils.SanitizeHtml(env, env.parse(content, MarkdownRenderer.MarkdownRendererHooks)))
    else if contentType == "semi-markdown" then
      Ok(Utils.SanitizeHtml(env, env.parse(content, MarkdownRenderer.SemiMarkdownRendererHooks)))
    else if contentType == "html" then Ok(Utils.SanitizeHtml(env, content))
    else if contentType == "text" then Ok(content)
    else Err("Unknown content type: " + contentType)
  }

  /** The characters the five-character escape rewrites. */
  predicate Special(c: char)
  {
    c == '&' || c == '<' || c == '>' || c == '"' || c == '\''
  }

  /** Escaping lengthens exactly the strings that hold a special character. */
  lemma {:induction false} EscapeEachFixed(s: string)
    ensures |MarkdownRenderer.EscapeEach(s)| >= |s|
    ensures MarkdownRenderer.EscapeEach(s) == s <==> forall i :: 0 <= i < |s| ==> !Special(s[i])
  {
    if s != [] {
      EscapeEachFixed(s[1..]);
      var e := MarkdownRenderer.EscapeChar(s[0]);
      assert MarkdownRenderer.EscapeEach(s) == e + MarkdownRenderer.EscapeEach(s[1..]);
      if Special(s[0]) {
        assert |e| >= 4;
      } else {
        assert e == [s[0]];
        if forall i :: 0 <= i < |s| ==> !Special(s[i]) {
          assert forall i :: 0 <= i < |s[1..]| ==> !Special(s[1..][i]) by {
            forall i | 0 <= i < |s[1..]| ensures !Special(s[1..][i]) {
              assert s[1..][i] == s[i + 1];
            }
          }
          assert s == [s[0]] + s[1..];
        } else {
          var k :| 0 <= k < |s| && Special(s[k]);
          assert k > 0 && s[1..][k - 1] == s[k];
        }
      }
    }
  }

  /**
   * This file's text conversion and `renderToHTML`'s agree exactly on the
   * texts without `& < > " '`: everywhere else this one leaves the markup
   * in place where `renderToHTML` escapes it.
   */
  lemma TextAgreesWithRenderToHtmlIff(env: Env, content: string)
    ensures ContentToHtml(env, content, "text") == MarkdownRenderer.RenderToHtml(env, content, "text")
            <==> forall i :: 0 <= i < |content| ==> !Special(content[i])
  {
    MarkdownRenderer.EscapeHtmlIsEscapeEach(content);
    EscapeEachFixed(content);
  }

  /** The other three types are converted as in `renderToHTML`, except that html is sanitized here. */
  lemma OtherTypesAgreeWithRenderToHtml(env: Env, content: string)
    ensures ContentToHtml(env, content, "markdown") == MarkdownRenderer.RenderToHtml(env, content, "markdown")
    ensures ContentToHtml(env, content, "semi-markdown") == MarkdownRenderer.RenderToHtml(env, content, "semi-markdown")
    ensures ContentToHtml(env, content, "html") == Ok(env.purify(content))
    ensures MarkdownRenderer.RenderToHtml(env, content, "html") == Ok(content)
  {
    MarkdownAgrees(env, content);
    SemiMarkdownAgrees(env, content);
  }

  lemma MarkdownAgrees(env: Env, content: string)
    ensures ContentToHtml(env, content, "markdown") == MarkdownRenderer.RenderToHtml(env, content, "markdown")
  {
    assert Contains("markdown", "markdown") by {
      ContainsMiddle("", "markdown", "");
      assert "" + "markdown" + "" == "markdown";
    }
  }

  lemma SemiMarkdownAgrees(env: Env, content: string)
    ensures ContentToHtml(env, content, "semi-markdown") == MarkdownRenderer.RenderToHtml(env, content, "semi-markdown")
  {
    assert Contains("semi-markdown", "markdown") by {
      ContainsMiddle("semi-", "markdown", "");
      assert "semi-" + "markdown" + "" == "semi-markdown";
    }
  }

  // ---------------------------------------------------------------
  // Streaming dot

  /** `lastElementChild?.tagName.toLowerCase() === "shiny-tool-request"` */
  predicate EndsWithToolRequest(cs: seq<Node>)
  {
    var last := LastElementChild(cs);
    last.Some? && Lower(last.value.tag) == "shiny-tool-request"
  }

  /** After the old dot is removed, a new one is wanted for non-blank content not ending in a tool request. */
  predicate DotWanted(cs: seq<Node>, content: string)
  {
    !IsBlank(content) && !EndsWithToolRequest(cs)
  }

  /**
   * The children after `appendStreamingDot`: the first dot is removed;
   * then, when a dot is wanted, a fresh copy goes at the end of the
   * innermost streaming element.
   */
  function DotAppended(cs: seq<Node>, content: string): seq<Node>
  {
    var removed := RemoveFirstDotIn(cs).0;
    if DotWanted(removed, content) then
      AppendAt(removed, StreamingLocator.Locate(removed, StreamingLocator.MaxDepth), Dot)
    else removed
  }

  /** The element the `MarkdownStream` component renders its HTML into (`containerRef`). */
  class MessageStream {
    /** whether `containerRef.current` is set */
    var mounted: bool
    /** the container's child nodes */
    var children: seq<Node>

    constructor (mounted: bool, children: seq<Node>)
      ensures this.mounted == mounted && this.children == children
    {
      this.mounted := mounted;
      this.children := children;
    }

    /** `removeStreamingDot`: the first `svg.markdown-stream-dot` is removed. */
    method RemoveStreamingDot()
      modifies this
      ensures mounted == old(mounted)
      ensures children == if mounted then RemoveFirstDotIn(old(children)).0 else old(children)
    {
      if !mounted {
        return;
      }
      children := RemoveFirstDotIn(children).0;
    }

    /**
     * `appendStreamingDot`: remove the dot, stop for blank content or a
     * trailing tool request, else find the innermost streaming element
     * and append a clone of the dot to it.
     */
    method AppendStreamingDot(content: string)
      modifies this
      ensures mounted == old(mounted)
      ensures children == if mounted then DotAppended(old(children), content) else old(children)
    {
      if !mounted {
        return;
      }
      RemoveStreamingDot();
      if Trim(content) == "" {
        return;
      }
      var last := LastElementChild(children);
      if last.Some? && Lower(last.value.tag) == "shiny-tool-request" {
        return;
      }
      var path := StreamingLocator.FindInnermostStreamingElement(Element("div", {}, map[], children));
      children := AppendAt(children, path, Dot);
    }

    /**
     * The effect on `streaming`: append the dot while streaming; else
     * remove it and report that `onStreamEnd` is called.
     */
    method StreamingEffect(content: string, streaming: bool) returns (streamEnd: bool)
      modifies this
      ensures mounted == old(mounted)
      ensures streaming ==> children == if mounted then DotAppended(old(children), content) else old(children)
      ensures !streaming ==> children == if mounted then RemoveFirstDotIn(old(children)).0 else old(children)
      ensures streamEnd <==> !streaming
    {
      if streaming {
        AppendStreamingDot(content);
        streamEnd := false;
      } else {
        RemoveStreamingDot();
        streamEnd := true;
      }
    }
  }

  /**
   * With at most one dot beforehand, `appendStreamingDot` leaves exactly
   * one dot when one is wanted and none otherwise, and the rest of the
   * tree is unchanged.
   */
  lemma DotAppendedKeepsOne(cs: seq<Node>, content: string)
    requires DotsIn(cs) <= 1
    ensures var r := DotAppended(cs, content);
            && DotsIn(r) == (if DotWanted(RemoveFirstDotIn(cs).0, content) then 1 else 0)
            && StripDotsIn(r) == StripDotsIn(cs)
  {
    var removed := RemoveFirstDotIn(cs).0;
    RemoveFirstIsStrip(cs);
    StripDotsInNone(removed);
    if DotWanted(removed, content) {
      var path := StreamingLocator.Locate(removed, StreamingLocator.MaxDepth);
      AppendDotAddsOne(removed, path);
      AppendDotStrips(removed, path);
    }
  }

  /** Blank content, or a tool request as last element child, leaves no dot at all. */
  lemma NoDotWhenBlankOrToolRequest(cs: seq<Node>, content: string)
    requires DotsIn(cs) <= 1
    requires IsBlank(content) || EndsWithToolRequest(RemoveFirstDotIn(cs).0)
    ensures DotsIn(DotAppended(cs, content)) == 0
  {
    DotAppendedKeepsOne(cs, content);
  }

  /** With at most one dot, `removeStreamingDot` clears every dot and keeps the rest. */
  lemma RemoveDotClears(cs: seq<Node>)
    requires DotsIn(cs) <= 1
    ensures DotsIn(RemoveFirstDotIn(cs).0) == 0
    ensures StripDotsIn(RemoveFirstDotIn(cs).0) == StripDotsIn(cs)
  {
    RemoveFirstIsStrip(cs);
    StripDotsInNone(StripDotsIn(cs));
  }

  /** Any number of dot appends and removals keeps the document at one dot or fewer. */
  lemma {:induction false} DotEffectsKeepAtMostOne(cs: seq<Node>, steps: seq<(string, bool)>)
    requires DotsIn(cs) <= 1
    ensures DotsIn(DotEffects(cs, steps)) <= 1
    ensures StripDotsIn(DotEffects(cs, steps)) == StripDotsIn(cs)
    decreases |steps|
  {
    if steps != [] {
      var (content, streaming) := steps[0];
      var next := if streaming then DotAppended(cs, content) else RemoveFirstDotIn(cs).0;
      if streaming {
        DotAppendedKeepsOne(cs, content);
      } else {
        RemoveDotClears(cs);
      }
      DotEffectsKeepAtMostOne(next, steps[1..]);
    }
  }

  /** The children after a run of streaming effects, each with its content and `streaming` value. */
  function DotEffects(cs: seq<Node>, steps: seq<(string, bool)>): seq<Node>
    decreases |steps|
  {
    if steps == [] then cs
    else
      var (content, streaming) := steps[0];
      DotEffects(if streaming then DotAppended(cs, content) else RemoveFirstDotIn(cs).0, steps[1..])
  }

  // ---------------------------------------------------------------
  // Message icon

  /** The two built-in icons (their SVG markup is not part of this model). */
  datatype Icons = Icons(robot: string, dotsFade: string)

  /**
   * `getIcon`: a user message shows its own icon; an assistant message
   * shows the loading dots while its content is blank, and otherwise its
   * icon, falling back to the robot.
   */
  function GetIcon(icons: Icons, role: Role, content: string, icon: string): (r: string)
    ensures role != Assistant ==> r == icon
    ensures role == Assistant && IsBlank(content) ==> r == icons.dotsFade
    ensures role == Assistant && !IsBlank(content) && icon != "" ==> r == icon
    ensures role == Assistant && !IsBlank(content) && icon == "" ==> r == icons.robot
  {
    if role != Assistant then icon
    else if |Trim(content)| == 0 then icons.dotsFade
    else if icon != "" then icon
    else icons.robot
  }

  /** An assistant message always shows one of the built-in icons or its own non-empty icon. */
  lemma AssistantAlwaysHasIcon(icons: Icons, content: string, icon: string)
    requires icons.robot != "" && icons.dotsFade != ""
    ensures GetIcon(icons, Assistant, content, icon) != ""
    ensures GetIcon(icons, Assistant, content, icon) in {icons.robot, icons.dotsFade, icon}
  {
  }

  // ---------------------------------------------------------------
  // Chat input

  /**
   * The textarea's state: its value, IME composition, the `disabled` prop,
   * what was sent, and what the memoised `onKeyDown` sees.  `onKeyDown` is
   * memoised on `isComposing` and `valueIsEmpty` only, so the `sendInput`
   * it calls is the one of the render in which one of those two last
   * changed; `keyValue` and `keyDisabled` are that render's `value` and
   * `disabled`.
   */
  datatype InputState = InputState(
    value: string,
    composing: bool,
    disabled: bool,
    /** the values passed to `onInputSent`, oldest first */
    sent: seq<string>,
    /** the `Shiny.setInputValue(id, value)` calls, oldest first */
    shinyInputs: seq<(string, string)>,
    keyValue: string,
    keyDisabled: bool)

  /** A new input: empty, not composing, with the handler of the first render. */
  function InitialInput(disabled: bool): InputState
  {
    InputState("", false, disabled, [], [], "", disabled)
  }

  /**
   * The render after a state change from `prev` to `next`: the memoised
   * `onKeyDown` is made anew, over this render's value and `disabled`,
   * exactly when `isComposing` or `valueIsEmpty` changed.
   */
  function Rerender(prev: InputState, next: InputState): (r: InputState)
    ensures r.(keyValue := next.keyValue, keyDisabled := next.keyDisabled) == next
    ensures prev.composing != next.composing || IsBlank(prev.value) != IsBlank(next.value) ==>
              r.keyValue == next.value && r.keyDisabled == next.disabled
    ensures prev.composing == next.composing && IsBlank(prev.value) == IsBlank(next.value) ==>
              r.keyValue == prev.keyValue && r.keyDisabled == prev.keyDisabled
  {
    if prev.composing != next.composing || IsBlank(prev.value) != IsBlank(next.value)
    then next.(keyValue := next.value, keyDisabled := next.disabled)
    else next.(keyValue := prev.keyValue, keyDisabled := prev.keyDisabled)
  }

  /**
   * The `sendInput` of a render whose `value` and `disabled` were `v` and
   * `d`: nothing for a blank `v` or when `d`; otherwise `v` goes to Shiny
   * (when present) and to `onInputSent`, and the box is cleared.
   */
  function SendWithStep(s: InputState, id: string, shinyPresent: bool, v: string, d: bool): InputState
  {
    if IsBlank(v) || d then s
    else
      Rerender(s, s.(sent := s.sent + [v],
                     shinyInputs := if shinyPresent then s.shinyInputs + [(id, v)] else s.shinyInputs,
                     value := ""))
  }

  /** `sendInput` of the current render, as the send button calls it. */
  function SendStep(s: InputState, id: string, shinyPresent: bool): InputState
  {
    SendWithStep(s, id, shinyPresent, s.value, s.disabled)
  }

  /** `onChange`: the box takes the typed value. */
  function InputStep(s: InputState, v: string): InputState
  {
    Rerender(s, s.(value := v))
  }

  /** `onCompositionStart` (true) and `onCompositionEnd` (false). */
  function ComposeStep(s: InputState, composing: bool): InputState
  {
    Rerender(s, s.(composing := composing))
  }

  /** A new `disabled` prop. */
  function DisabledStep(s: InputState, disabled: bool): InputState
  {
    Rerender(s, s.(disabled := disabled))
  }

  /** `onKeyDown`: Enter without Shift, outside composition, with a non-blank value, sends. */
  predicate SubmitsOnKey(s: InputState, code: string, shiftKey: bool)
  {
    code == "Enter" && !shiftKey && !s.composing && !IsBlank(s.value)
  }

  /** `onKeyDown` as written: it calls the `sendInput` of the render it was made in. */
  function KeyDownStep(s: InputState, id: string, code: string, shiftKey: bool, shinyPresent: bool): InputState
  {
    if SubmitsOnKey(s, code, shiftKey) then SendWithStep(s, id, shinyPresent, s.keyValue, s.keyDisabled) else s
  }

  /** `onKeyDown` with `sendInput` among its dependencies, so that it sends what the box holds. */
  function KeyDownStepFixed(s: InputState, id: string, code: string, shiftKey: bool, shinyPresent: bool): InputState
  {
    if SubmitsOnKey(s, code, shiftKey) then SendStep(s, id, shinyPresent) else s
  }

  /** The handler's value is blank exactly when the box's is, since blankness is one of its dependencies. */
  predicate KeyFresh(s: InputState)
  {
    IsBlank(s.keyValue) == IsBlank(s.value)
  }

  class ChatInput {
    const id: string
    var value: string
    var composing: bool
    var disabled: bool
    var sent: seq<string>
    var shinyInputs: seq<(string, string)>
    /** the `value` and `disabled` the memoised `onKeyDown` closes over */
    var keyValue: string
    var keyDisabled: bool

    function State(): InputState
      reads this
    {
      InputState(value, composing, disabled, sent, shinyInputs, keyValue, keyDisabled)
    }

    constructor (id: string, disabled: bool)
      ensures this.id == id
      ensures State() == InitialInput(disabled)
    {
      this.id := id;
      value := "";
      composing := false;
      this.disabled := disabled;
      sent := [];
      shinyInputs := [];
      keyValue := "";
      keyDisabled := disabled;
    }

    /** React's render after the state was `prev`: `useCallback` compares the dependencies. */
    method Rerendered(prev: InputState)
      modifies this
      requires keyValue == prev.keyValue && keyDisabled == prev.keyDisabled
      ensures State() == Rerender(prev, old(State()))
    {
      if prev.composing != composing || IsBlank(prev.value) != IsBlank(value) {
        keyValue := value;
        keyDisabled := disabled;
      }
    }

    /** The `sendInput` of the render whose `value` and `disabled` were `v` and `d`. */
    method SendWith(v: string, d: bool, shinyPresent: bool)
      modifies this
      ensures State() == SendWithStep(old(State()), id, shinyPresent, v, d)
    {
      if Trim(v) == "" || d {
        return;
      }
      var prev := State();
      shinyInputs := if shinyPresent then shinyInputs + [(id, v)] else shinyInputs;
      sent := sent + [v];
      value := "";
      assert State() == prev.(sent := sent, shinyInputs := shinyInputs, value := "");
      Rerendered(prev);
    }

    method SendInput(shinyPresent: bool)
      modifies this
      ensures State() == SendStep(old(State()), id, shinyPresent)
    {
      SendWith(value, disabled, shinyPresent);
    }

    method OnInput(v: string)
      modifies this
      ensures State() == InputStep(old(State()), v)
    {
      var prev := State();
      value := v;
      Rerendered(prev);
    }

    method SetComposing(b: bool)
      modifies this
      ensures State() == ComposeStep(old(State()), b)
    {
      var prev := State();
      composing := b;
      Rerendered(prev);
    }

    method SetDisabled(d: bool)
      modifies this
      ensures State() == DisabledStep(old(State()), d)
    {
      var prev := State();
      disabled := d;
      Rerendered(prev);
    }

    /** Returns whether the key's default action is prevented. */
    method OnKeyDown(code: string, shiftKey: bool, shinyPresent: bool) returns (preventDefault: bool)
      modifies this
      ensures State() == KeyDownStep(old(State()), id, code, shiftKey, shinyPresent)
      ensures preventDefault <==> SubmitsOnKey(old(State()), code, shiftKey)
    {
      var isEnter := code == "Enter" && !shiftKey;
      preventDefault := isEnter && !composing && Trim(value) != "";
      if preventDefault {
        SendWith(keyValue, keyDisabled, shinyPresent);
      }
    }
  }

  /** A value is sent exactly when it is non-blank and the input is enabled; the box is then empty. */
  lemma SendStepRule(s: InputState, id: string, shinyPresent: bool)
    ensures var r := SendStep(s, id, shinyPresent);
            && (r.sent == s.sent + [s.value] <==> !IsBlank(s.value) && !s.disabled)
            && (r.sent != s.sent ==> r.value == "")
            && (r.sent == s.sent ==> r == s)
            && r.disabled == s.disabled && r.composing == s.composing
  {
  }

  /** A render keeps the handler's value blank exactly when the box's is. */
  lemma RerenderKeepsFresh(prev: InputState, next: InputState)
    requires KeyFresh(prev)
    ensures KeyFresh(Rerender(prev, next))
  {
  }

  /** A send of any render keeps the handler's value blank exactly when the box's is. */
  lemma SendWithKeepsFresh(s: InputState, id: string, shinyPresent: bool, v: string, d: bool)
    requires KeyFresh(s)
    ensures KeyFresh(SendWithStep(s, id, shinyPresent, v, d))
  {
    if !(IsBlank(v) || d) {
      var shiny := if shinyPresent then s.shinyInputs + [(id, v)] else s.shinyInputs;
      RerenderKeepsFresh(s, s.(sent := s.sent + [v], shinyInputs := shiny, value := ""));
    }
  }

  /** Every step keeps the handler's value blank exactly when the box's is. */
  lemma StepsKeepKeyFresh(s: InputState, id: string, shinyPresent: bool, v: string, b: bool, code: string, shiftKey: bool)
    requires KeyFresh(s)
    ensures KeyFresh(InitialInput(b))
    ensures KeyFresh(InputStep(s, v)) && KeyFresh(ComposeStep(s, b)) && KeyFresh(DisabledStep(s, b))
    ensures KeyFresh(SendStep(s, id, shinyPresent))
    ensures KeyFresh(KeyDownStep(s, id, code, shiftKey, shinyPresent))
    ensures KeyFresh(KeyDownStepFixed(s, id, code, shiftKey, shinyPresent))
  {
    RerenderKeepsFresh(s, s.(value := v));
    RerenderKeepsFresh(s, s.(composing := b));
    RerenderKeepsFresh(s, s.(disabled := b));
    SendWithKeepsFresh(s, id, shinyPresent, s.value, s.disabled);
    if SubmitsOnKey(s, code, shiftKey) {
      SendWithKeepsFresh(s, id, shinyPresent, s.keyValue, s.keyDisabled);
      assert KeyDownStep(s, id, code, shiftKey, shinyPresent) == SendWithStep(s, id, shinyPresent, s.keyValue, s.keyDisabled);
      assert KeyDownStepFixed(s, id, code, shiftKey, shinyPresent) == SendStep(s, id, shinyPresent);
    } else {
      assert KeyDownStep(s, id, code, shiftKey, shinyPresent) == s;
      assert KeyDownStepFixed(s, id, code, shiftKey, shinyPresent) == s;
    }
  }

  /**
   * As written, a key sends exactly for Enter without Shift, outside
   * composition, with a non-blank box, when the handler's render had a
   * non-blank value and was enabled; what it sends is that render's value.
   */
  lemma KeyDownSendsIff(s: InputState, id: string, code: string, shiftKey: bool, shinyPresent: bool)
    ensures var r := KeyDownStep(s, id, code, shiftKey, shinyPresent);
            && (r.sent != s.sent <==>
                  code == "Enter" && !shiftKey && !s.composing && !IsBlank(s.value)
                  && !IsBlank(s.keyValue) && !s.keyDisabled)
            && (r.sent != s.sent ==> r.sent == s.sent + [s.keyValue] && r.value == "")
            && (r.sent == s.sent ==> r == s)
  {
  }

  /** The empty box is blank. */
  lemma EmptyIsBlank()
    ensures IsBlank("")
  {
    BlankIffTrimEmpty("");
  }

  /** Typing `v1` makes the handler anew over `v1`; typing `v2` then changes neither dependency. */
  lemma TypingKeepsFirstHandler(v1: string, v2: string)
    requires !IsBlank(v1) && !IsBlank(v2)
    ensures InputStep(InputStep(InitialInput(false), v1), v2) == InputState(v2, false, false, [], [], v1, false)
  {
    EmptyIsBlank();
    var s1 := InputStep(InitialInput(false), v1);
    assert s1 == InputState(v1, false, false, [], [], v1, false);
  }

  /**
   * Typing a non-blank `v1`, then a non-blank `v2` (say `h`, then `hi`),
   * then pressing Enter sends `v1`: typing `v2` changed neither
   * dependency, so the handler still calls the `sendInput` that saw `v1`.
   * The corrected handler sends `v2`.
   */
  lemma StaleKeyDownSendsEarlierValue(id: string, shinyPresent: bool, v1: string, v2: string)
    requires !IsBlank(v1) && !IsBlank(v2)
    ensures var s := InputStep(InputStep(InitialInput(false), v1), v2);
            && s.value == v2
            && KeyDownStep(s, id, "Enter", false, shinyPresent).sent == [v1]
            && KeyDownStepFixed(s, id, "Enter", false, shinyPresent).sent == [v2]
  {
    TypingKeepsFirstHandler(v1, v2);
    var s := InputState(v2, false, false, [], [], v1, false);
    assert KeyDownStep(s, id, "Enter", false, shinyPresent) == SendWithStep(s, id, shinyPresent, v1, false);
    assert KeyDownStepFixed(s, id, "Enter", false, shinyPresent) == SendWithStep(s, id, shinyPresent, v2, false);
  }

  /** The corrected handler sends exactly for Enter without Shift, outside composition, non-blank and enabled, and sends the box's value. */
  lemma KeyDownFixedSendsIff(s: InputState, id: string, code: string, shiftKey: bool, shinyPresent: bool)
    ensures var r := KeyDownStepFixed(s, id, code, shiftKey, shinyPresent);
            && (r.sent != s.sent <==>
                  code == "Enter" && !shiftKey && !s.composing && !IsBlank(s.value) && !s.disabled)
            && (r.sent != s.sent ==> r.sent == s.sent + [s.value] && r.value == "")
            && (r.sent == s.sent ==> r == s)
  {
  }

  /** Where the handler's render saw what the box holds now, both handlers agree. */
  lemma KeyDownAgreesWhenCurrent(s: InputState, id: string, code: string, shiftKey: bool, shinyPresent: bool)
    requires s.keyValue == s.value && s.keyDisabled == s.disabled
    ensures KeyDownStep(s, id, code, shiftKey, shinyPresent) == KeyDownStepFixed(s, id, code, shiftKey, shinyPresent)
  {
  }

  // ---------------------------------------------------------------
  // ChatApp

  const DefaultPlaceholder: string := "Enter a message..."

  datatype AppState = AppState(messages: seq<Message>, inputDisabled: bool, placeholder: string)

  /** What `updateUserInput` hands to the input's `setInputValue`. */
  datatype SetInput = SetInput(value: string, submit: Option<bool>, focus: Option<bool>)

  datatype UpdateUserInput = UpdateUserInput(value: Option<string>, placeholder: Option<string>,
                                             submit: Option<bool>, focus: Option<bool>)

  /** An assistant message without an icon gets the configured one, when one is configured. */
  function WithAssistantIcon(m: Message, iconAssistant: string): (r: Message)
    ensures iconAssistant != "" && m.role == Assistant ==> r == m.(icon := Some(OrElse(m.icon, iconAssistant)))
    ensures iconAssistant == "" || m.role != Assistant ==> r == m
  {
    if iconAssistant != "" && m.role == Assistant then m.(icon := Some(OrElse(m.icon, iconAssistant))) else m
  }

  /** `appendMessage`: the message, with its icon filled in and id `msg-<stamp>`, goes last; input is disabled. */
  function AppendStep(s: AppState, m: Message, iconAssistant: string, stamp: string): AppState
  {
    s.(messages := s.messages + [WithAssistantIcon(m, iconAssistant).(id := Some("msg-" + stamp))],
       inputDisabled := true)
  }

  /** `addLoadingMessage`: an empty assistant markdown message. */
  function LoadingStep(s: AppState, iconAssistant: string, stamp: string): AppState
  {
    AppendStep(s, Plain("", Assistant, Some("markdown")), iconAssistant, stamp)
  }

  function RemoveLoadingStep(s: AppState): AppState
  {
    s.(messages := RemoveLastIfBlank(s.messages))
  }

  function UpdateLastStep(s: AppState, content: string, append: bool): AppState
  {
    s.(messages := UpdateLast(s.messages, content, append))
  }

  function FinalizeStep(s: AppState): AppState
  {
    s.(inputDisabled := false)
  }

  function UpdateUserInputStep(s: AppState, u: UpdateUserInput): AppState
  {
    if u.placeholder.Some? then s.(placeholder := u.placeholder.value) else s
  }

  /**
   * `handleAppendChunk`: a start chunk is appended as a new message and
   * nothing else happens; any other chunk rewrites the last message
   * (`operation || "replace"`), and an end chunk then re-enables input.
   */
  function AppendChunkStep(s: AppState, m: Message, iconAssistant: string, stamp: string): AppState
  {
    if m.chunkType == Some(MessageStart) then AppendStep(s, m, iconAssistant, stamp)
    else
      var s1 := UpdateLastStep(s, m.content, IsAppend(m.operation));
      if m.chunkType == Some(MessageEnd) then FinalizeStep(s1) else s1
  }

  class ChatApp {
    const iconAssistant: string
    var messages: seq<Message>
    var inputDisabled: bool
    var placeholder: string

    function State(): AppState
      reads this
    {
      AppState(messages, inputDisabled, placeholder)
    }

    constructor (iconAssistant: string)
      ensures this.iconAssistant == iconAssistant
      ensures State() == AppState([], false, DefaultPlaceholder)
    {
      this.iconAssistant := iconAssistant;
      messages := [];
      inputDisabled := false;
      placeholder := DefaultPlaceholder;
    }

    method AppendMessage(m: Message, stamp: string)
      modifies this
      ensures State() == AppendStep(old(State()), m, iconAssistant, stamp)
    {
      var msg := m;
      if iconAssistant != "" && msg.role == Assistant {
        msg := msg.(icon := Some(OrElse(msg.icon, iconAssistant)));
      }
      messages := messages + [msg.(id := Some("msg-" + stamp))];
      inputDisabled := true;
    }

    method AddLoadingMessage(stamp: string)
      modifies this
      ensures State() == LoadingStep(old(State()), iconAssistant, stamp)
    {
      AppendMessage(Plain("", Assistant, Some("markdown")), stamp);
    }

    method RemoveLoadingMessage()
      modifies this
      ensures State() == RemoveLoadingStep(old(State()))
    {
      if |messages| == 0 {
        return;
      }
      var last := messages[|messages| - 1];
      if Trim(last.content) == "" {
        messages := messages[..|messages| - 1];
      }
    }

    method UpdateLastMessage(content: string, append: bool)
      modifies this
      ensures State() == UpdateLastStep(old(State()), content, append)
    {
      if |messages| == 0 {
        return;
      }
      var lastIndex := |messages| - 1;
      var last := messages[lastIndex];
      messages := messages[lastIndex := last.(content := if append then last.content + content else content)];
    }

    method FinalizeMessage()
      modifies this
      ensures State() == FinalizeStep(old(State()))
    {
      inputDisabled := false;
    }

    method ClearMessages()
      modifies this
      ensures State() == old(State()).(messages := [])
    {
      messages := [];
    }

    /** Returns the call forwarded to the input's `setInputValue`, if any. */
    method UpdateUserInputs(u: UpdateUserInput, inputMounted: bool) returns (forward: Option<SetInput>)
      modifies this
      ensures State() == UpdateUserInputStep(old(State()), u)
      ensures forward == if u.value.Some? && inputMounted then Some(SetInput(u.value.value, u.submit, u.focus)) else None
    {
      forward := None;
      if u.value.Some? && inputMounted {
        forward := Some(SetInput(u.value.value, u.submit, u.focus));
      }
      if u.placeholder.Some? {
        placeholder := u.placeholder.value;
      }
    }

    /** `onInputSent`: the typed text as a semi-markdown user message, then a loading message. */
    method OnInputSent(content: string, stamp1: string, stamp2: string)
      modifies this
      ensures State() == LoadingStep(AppendStep(old(State()), Plain(content, User, Some("semi-markdown")),
                                                iconAssistant, stamp1), iconAssistant, stamp2)
    {
      AppendMessage(Plain(content, User, Some("semi-markdown")), stamp1);
      AddLoadingMessage(stamp2);
    }

    /** The `shiny-chat-input-sent` event: its message as given, then a loading message. */
    method HandleInputSentEvent(detail: Message, stamp1: string, stamp2: string)
      modifies this
      ensures State() == LoadingStep(AppendStep(old(State()), detail, iconAssistant, stamp1), iconAssistant, stamp2)
    {
      AppendMessage(detail, stamp1);
      AddLoadingMessage(stamp2);
    }

    method HandleAppendChunk(m: Message, stamp: string)
      modifies this
      ensures State() == AppendChunkStep(old(State()), m, iconAssistant, stamp)
    {
      if m.chunkType == Some(MessageStart) {
        AppendMessage(m, stamp);
        return;
      }
      UpdateLastMessage(m.content, IsAppend(m.operation));
      if m.chunkType == Some(MessageEnd) {
        FinalizeMessage();
      }
    }

    /** The `shiny-chat-remove-loading-message` event. */
    method HandleRemoveLoadingMessage()
      modifies this
      ensures State() == FinalizeStep(RemoveLoadingStep(old(State())))
    {
      RemoveLoadingMessage();
      FinalizeMessage();
    }
  }

  /** `appendMessage` keeps every earlier message in place, adds one at the end and disables input. */
  lemma AppendStepRule(s: AppState, m: Message, iconAssistant: string, stamp: string)
    ensures var r := AppendStep(s, m, iconAssistant, stamp);
            && |r.messages| == |s.messages| + 1
            && r.messages[..|s.messages|] == s.messages
            && r.messages[|s.messages|].content == m.content
            && r.messages[|s.messages|].role == m.role
            && r.messages[|s.messages|].id == Some("msg-" + stamp)
            && (m.role == Assistant && iconAssistant != "" && (m.icon.None? || m.icon.value == "") ==>
                  r.messages[|s.messages|].icon == Some(iconAssistant))
            && (m.icon.Some? && m.icon.value != "" ==> r.messages[|s.messages|].icon == m.icon)
            && r.inputDisabled
            && r.placeholder == s.placeholder
  {
    var r := AppendStep(s, m, iconAssistant, stamp);
    assert r.messages[..|s.messages|] == s.messages;
  }

  /** `removeLoadingMessage` drops at most one message, the last, and only when it is blank. */
  lemma RemoveLoadingStepRule(s: AppState)
    ensures var r := RemoveLoadingStep(s);
            && (r.messages == s.messages
                || (s.messages != [] && IsBlank(s.messages[|s.messages| - 1].content)
                    && r.messages == s.messages[..|s.messages| - 1]))
            && (s.messages != [] && !IsBlank(s.messages[|s.messages| - 1].content) ==> r == s)
            && r.inputDisabled == s.inputDisabled && r.placeholder == s.placeholder
  {
  }

  /**
   * A chunk that is not a start never changes the number of messages or
   * any message but the last, and only an end chunk re-enables input.
   */
  lemma AppendChunkRule(s: AppState, m: Message, iconAssistant: string, stamp: string)
    ensures var r := AppendChunkStep(s, m, iconAssistant, stamp);
            && (m.chunkType == Some(MessageStart) ==>
                  |r.messages| == |s.messages| + 1 && r.messages[..|s.messages|] == s.messages && r.inputDisabled)
            && (m.chunkType != Some(MessageStart) ==>
                  && |r.messages| == |s.messages|
                  && (forall i :: 0 <= i < |s.messages| - 1 ==> r.messages[i] == s.messages[i])
                  && (s.messages != [] ==>
                        r.messages[|s.messages| - 1].content
                          == (if IsAppend(m.operation) then s.messages[|s.messages| - 1].content + m.content
                              else m.content))
                  && (r.inputDisabled == if m.chunkType == Some(MessageEnd) then false else s.inputDisabled))
            && r.placeholder == s.placeholder
  {
    AppendStepRule(s, m, iconAssistant, stamp);
  }

  /** Sending input adds exactly two messages: the user's text as semi-markdown, then an empty assistant message. */
  lemma OnInputSentAddsTwo(s: AppState, content: string, iconAssistant: string, stamp1: string, stamp2: string)
    ensures var r := LoadingStep(AppendStep(s, Plain(content, User, Some("semi-markdown")), iconAssistant, stamp1),
                                 iconAssistant, stamp2);
            && |r.messages| == |s.messages| + 2
            && r.messages[..|s.messages|] == s.messages
            && r.messages[|s.messages|].role == User
            && r.messages[|s.messages|].content == content
            && r.messages[|s.messages|].contentType == Some("semi-markdown")
            && r.messages[|s.messages| + 1].role == Assistant
            && r.messages[|s.messages| + 1].content == ""
            && r.messages[|s.messages| + 1].contentType == Some("markdown")
            && r.inputDisabled
  {
    var s1 := AppendStep(s, Plain(content, User, Some("semi-markdown")), iconAssistant, stamp1);
    AppendStepRule(s, Plain(content, User, Some("semi-markdown")), iconAssistant, stamp1);
    AppendStepRule(s1, Plain("", Assistant, Some("markdown")), iconAssistant, stamp2);
    var r := LoadingStep(s1, iconAssistant, stamp2);
    assert r.messages[..|s.messages|] == s1.messages[..|s.messages|];
  }

  /**
   * The `shiny-chat-input-sent` event appends its message with only the id
   * (and, for an assistant message, the icon) filled in, then an empty
   * assistant message.
   */
  lemma InputSentEventAddsTwo(s: AppState, detail: Message, iconAssistant: string, stamp1: string, stamp2: string)
    ensures var r := LoadingStep(AppendStep(s, detail, iconAssistant, stamp1), iconAssistant, stamp2);
            && |r.messages| == |s.messages| + 2
            && r.messages[..|s.messages|] == s.messages
            && r.messages[|s.messages|] == WithAssistantIcon(detail, iconAssistant).(id := Some("msg-" + stamp1))
            && r.messages[|s.messages| + 1].role == Assistant
            && r.messages[|s.messages| + 1].content == ""
            && r.inputDisabled && r.placeholder == s.placeholder
  {
    var s1 := AppendStep(s, detail, iconAssistant, stamp1);
    AppendStepRule(s1, Plain("", Assistant, Some("markdown")), iconAssistant, stamp2);
    var r := LoadingStep(s1, iconAssistant, stamp2);
    assert r.messages[..|s.messages|] == s1.messages[..|s.messages|];
  }

  /** Removing the loading message right after sending input takes away exactly the loading message. */
  lemma SendThenRemoveLoading(s: AppState, content: string, iconAssistant: string, stamp1: string, stamp2: string)
    ensures var s1 := AppendStep(s, Plain(content, User, Some("semi-markdown")), iconAssistant, stamp1);
            var r := FinalizeStep(RemoveLoadingStep(LoadingStep(s1, iconAssistant, stamp2)));
            r.messages == s1.messages && !r.inputDisabled
  {
    var s1 := AppendStep(s, Plain(content, User, Some("semi-markdown")), iconAssistant, stamp1);
    var s2 := LoadingStep(s1, iconAssistant, stamp2);
    assert IsBlank(s2.messages[|s2.messages| - 1].content);
    assert s2.messages[..|s2.messages| - 1] == s1.messages;
  }
}
