/**
 * The `shiny-markdown-stream` element of markdown-stream-clean.ts: a
 * custom element that keeps its props in private fields, maps its four
 * observed attributes onto them, renders a React root when it has one,
 * and handles the Shiny message by rewriting the `content` attribute.
 */
module MarkdownStreamClean {
  import opened Common
  import opened Utils
  import MarkdownStreamLit

  /** The props the element keeps. */
  datatype Fields = Fields(content: string, contentType: string, streaming: bool, autoScroll: bool)

  const DefaultFields: Fields := Fields("", "markdown", false, false)

  /** The attributes the element observes. */
  const ObservedAttributes: set<string> := {"content", "content-type", "streaming", "auto-scroll"}

  /**
   * `attributeChangedCallback`'s mapping: `content` to the value or `""`,
   * `content-type` to the value or `"markdown"`, the two flags to the
   * attribute's presence (an empty value counts as present); any other
   * name changes nothing.  `newValue` is `None` for a removed attribute.
   */
  function ApplyAttribute(f: Fields, name: string, newValue: Option<string>): (r: Fields)
    ensures name == "content" ==>
              r == f.(content := if newValue.Some? && newValue.value != "" then newValue.value else "")
    ensures name == "content-type" ==>
              r == f.(contentType := if newValue.Some? && newValue.value != "" then newValue.value else "markdown")
    ensures name == "streaming" ==> r == f.(streaming := newValue.Some?)
    ensures name == "auto-scroll" ==> r == f.(autoScroll := newValue.Some?)
    ensures name !in ObservedAttributes ==> r == f
  {
    if name == "content" then f.(content := if newValue.Some? then newValue.value else "")
    else if name == "content-type" then f.(contentType := if newValue.Some? && newValue.value != "" then newValue.value else "markdown")
    else if name == "streaming" then f.(streaming := newValue != None)
    else if name == "auto-scroll" then f.(autoScroll := newValue != None)
    else f
  }

  /** The props handed to `MarkdownStream` on each render. */
  datatype Props = Props(fields: Fields, hasOnContentChange: bool, hasOnStreamEnd: bool)

  /** Calls on the React root. */
  datatype RootCall = RenderWith(props: Props) | Unmount

  datatype ElementState = ElementState(
    root: bool,
    fields: Fields,
    hasOnContentChange: bool,
    hasOnStreamEnd: bool,
    attrs: map<string, string>,
    calls: seq<RootCall>)

  /** `render`: nothing without a root, else one render with the current props. */
  function RenderStep(s: ElementState): (r: ElementState)
    ensures r.(calls := s.calls) == s
    ensures r.calls == s.calls + (if s.root then [RenderWith(Props(s.fields, s.hasOnContentChange, s.hasOnStreamEnd))] else [])
  {
    if s.root then s.(calls := s.calls + [RenderWith(Props(s.fields, s.hasOnContentChange, s.hasOnStreamEnd))])
    else s
  }

  /** A property setter: store, then render. */
  function SetFieldsStep(s: ElementState, f: Fields): ElementState
  {
    RenderStep(s.(fields := f))
  }

  function AttributeChangedStep(s: ElementState, name: string, newValue: Option<string>): ElementState
  {
    if name in ObservedAttributes then SetFieldsStep(s, ApplyAttribute(s.fields, name, newValue)) else s
  }

  /** `setAttribute`: the attribute is written and, when observed, the callback runs. */
  function SetAttributeStep(s: ElementState, name: string, value: string): ElementState
  {
    AttributeChangedStep(s.(attrs := s.attrs[name := value]), name, Some(value))
  }

  function ConnectedStep(s: ElementState): ElementState
  {
    RenderStep(s.(root := true))
  }

  function DisconnectedStep(s: ElementState): (r: ElementState)
    ensures !r.root
    ensures r.calls == s.calls + (if s.root then [Unmount] else [])
  {
    if s.root then s.(root := false, calls := s.calls + [Unmount]) else s
  }

  class MarkdownElement {
    var root: bool
    var fields: Fields
    var hasOnContentChange: bool
    var hasOnStreamEnd: bool
    var attrs: map<string, string>
    var calls: seq<RootCall>

    function State(): ElementState
      reads this
    {
      ElementState(root, fields, hasOnContentChange, hasOnStreamEnd, attrs, calls)
    }

    constructor(attrs: map<string, string>)
      ensures State() == ElementState(false, DefaultFields, false, false, attrs, [])
    {
      root := false;
      fields := DefaultFields;
      hasOnContentChange := false;
      hasOnStreamEnd := false;
      this.attrs := attrs;
      calls := [];
    }

    method Render()
      modifies this
      ensures State() == RenderStep(old(State()))
    {
      if root {
        calls := calls + [RenderWith(Props(fields, hasOnContentChange, hasOnStreamEnd))];
      }
    }

    method SetContent(value: string)
      modifies this
      ensures State() == SetFieldsStep(old(State()), old(fields).(content := value))
    {
      fields := fields.(content := value);
      Render();
    }

    method SetContentType(value: string)
      modifies this
      ensures State() == SetFieldsStep(old(State()), old(fields).(contentType := value))
    {
      fields := fields.(contentType := value);
      Render();
    }

    method SetStreaming(value: bool)
      modifies this
      ensures State() == SetFieldsStep(old(State()), old(fields).(streaming := value))
    {
      fields := fields.(streaming := value);
      Render();
    }

    method SetAutoScroll(value: bool)
      modifies this
      ensures State() == SetFieldsStep(old(State()), old(fields).(autoScroll := value))
    {
      fields := fields.(autoScroll := value);
      Render();
    }

    /** The callback setters store the callback and render. */
    method SetOnContentChange(present: bool)
      modifies this
      ensures State() == RenderStep(old(State()).(hasOnContentChange := present))
    {
      hasOnContentChange := present;
      Render();
    }

    method SetOnStreamEnd(present: bool)
      modifies this
      ensures State() == RenderStep(old(State()).(hasOnStreamEnd := present))
    {
      hasOnStreamEnd := present;
      Render();
    }

    /** `connectedCallback`: create the root if there is none, then render. */
    method ConnectedCallback()
      modifies this
      ensures State() == ConnectedStep(old(State()))
    {
      root := true;
      Render();
    }

    /** `disconnectedCallback`: unmount and drop the root. */
    method DisconnectedCallback()
      modifies this
      ensures State() == DisconnectedStep(old(State()))
    {
      if root {
        calls := calls + [Unmount];
        root := false;
      }
    }

    method AttributeChangedCallback(name: string, newValue: Option<string>)
      modifies this
      ensures State() == AttributeChangedStep(old(State()), name, newValue)
    {
      if name == "content" {
        SetContent(if newValue.Some? && newValue.value != "" then newValue.value else "");
      } else if name == "content-type" {
        SetContentType(if newValue.Some? && newValue.value != "" then newValue.value else "markdown");
      } else if name == "streaming" {
        SetStreaming(newValue.Some?);
      } else if name == "auto-scroll" {
        SetAutoScroll(newValue.Some?);
      }
    }

    method SetAttribute(name: string, value: string)
      modifies this
      ensures State() == SetAttributeStep(old(State()), name, value)
    {
      attrs := attrs[name := value];
      if name in ObservedAttributes {
        AttributeChangedCallback(name, Some(value));
      }
    }
  }

  /**
   * Before connection and after disconnection there is no root, so no
   * setter and no attribute change reaches React; once connected each
   * one renders exactly once.
   */
  lemma RenderGuard(s: ElementState, f: Fields, name: string, value: string)
    ensures !s.root ==> SetFieldsStep(s, f).calls == s.calls && SetAttributeStep(s, name, value).calls == s.calls
    ensures s.root ==> |SetFieldsStep(s, f).calls| == |s.calls| + 1
    ensures s.root && name in ObservedAttributes ==> |SetAttributeStep(s, name, value).calls| == |s.calls| + 1
    ensures !DisconnectedStep(s).root && SetFieldsStep(DisconnectedStep(s), f).calls == DisconnectedStep(s).calls
  {
  }

  /** Setting an attribute to a non-empty value reads back through the mapping. */
  lemma AttributeRoundTrip(s: ElementState, name: string, value: string)
    requires value != ""
    ensures var r := SetAttributeStep(s, name, value);
            (name == "content" ==> r.fields.content == value)
            && (name == "content-type" ==> r.fields.contentType == value)
            && (name == "streaming" ==> r.fields.streaming)
            && (name == "auto-scroll" ==> r.fields.autoScroll)
            && name in r.attrs && r.attrs[name] == value
  {
  }

  /** The result of `handleMessage`: client messages shown and the error thrown, if any. */
  datatype Handled = Handled(notices: seq<ClientMessage>, thrown: Option<string>)

  /** The content an `append` builds on: `getAttribute("content") || ""`. */
  function CurrentAttribute(attrs: map<string, string>): string
  {
    if "content" in attrs && attrs["content"] != "" then attrs["content"] else ""
  }

  /**
   * `handleMessage`: the element is looked up by id (`el`); a streaming
   * message sets the property; a content message renders dependencies
   * and then writes the `content` attribute, or throws for an unknown
   * operation.
   */
  method HandleMessage<D>(el: MarkdownElement?, msg: MarkdownStreamLit.StreamMessage<D>,
                          shinyPresent: bool, renderError: Option<string>)
    returns (h: Handled)
    modifies el
    ensures el == null ==> h == Handled([MarkdownStreamLit.NotFoundMessage(msg.id)], None)
    ensures el != null && msg.StreamingMessage? ==>
              h == Handled([], None) && el.State() == SetFieldsStep(old(el.State()), old(el.fields).(streaming := msg.isStreaming))
    ensures el != null && msg.ContentMessage? ==>
              h.notices == DepsNotices(shinyPresent, msg.htmlDeps, renderError)
              && (h.thrown.Some? <==> msg.operation != "replace" && msg.operation != "append")
              && (h.thrown.Some? ==> h.thrown.value == "Unknown operation: " + msg.operation
                                     && el.State() == old(el.State()))
              && (msg.operation == "replace" ==> el.State() == SetAttributeStep(old(el.State()), "content", msg.content))
              && (msg.operation == "append" ==>
                    el.State() == SetAttributeStep(old(el.State()), "content", CurrentAttribute(old(el.attrs)) + msg.content))
  {
    if el == null {
      return Handled([MarkdownStreamLit.NotFoundMessage(msg.id)], None);
    }
    match msg
    case StreamingMessage(_, isStreaming) =>
      el.SetStreaming(isStreaming);
      h := Handled([], None);
    case ContentMessage(_, content, operation, deps) =>
      var notices := DepsNotices(shinyPresent, deps, renderError);
      if operation == "replace" {
        el.SetAttribute("content", content);
        h := Handled(notices, None);
      } else if operation == "append" {
        var current := if "content" in el.attrs && el.attrs["content"] != "" then el.attrs["content"] else "";
        el.SetAttribute("content", current + content);
        h := Handled(notices, None);
      } else {
        h := Handled(notices, Some("Unknown operation: " + operation));
      }
  }

  /**
   * After a content message the `content` property equals the new
   * attribute: the delta for `replace`, and for `append` the previous
   * attribute (a missing one read as empty) followed by the delta; the
   * other props are kept.
   */
  lemma ContentMessageRule(s: ElementState, op: string, delta: string)
    requires op == "replace" || op == "append"
    ensures var v := if op == "replace" then delta else CurrentAttribute(s.attrs) + delta;
            var r := SetAttributeStep(s, "content", v);
            r.fields == s.fields.(content := v) && r.attrs == s.attrs["content" := v]
            && (op == "append" && "content" !in s.attrs ==> r.fields.content == delta)
  {
  }

  /**
   * The attribute this element ends with is the content the corrected
   * page-level handler of markdown-stream.ts computes: this file's
   * `append` reads a missing attribute as empty.
   */
  lemma AppendMatchesCorrectedHandler<D>(s: ElementState, page: map<string, MarkdownStreamLit.StreamElement>,
                                         id: string, delta: string, shinyPresent: bool)
    requires id in page
    requires page[id].contentAttr == (if "content" in s.attrs then Some(s.attrs["content"]) else None)
    ensures var h := MarkdownStreamLit.HandleMessage<D>(page, MarkdownStreamLit.ContentMessage(id, delta, "append", None), shinyPresent, None);
            var r := SetAttributeStep(s, "content", CurrentAttribute(s.attrs) + delta);
            h.page[id].contentAttr == Some(r.attrs["content"])
  {
    MarkdownStreamLit.HandleMessageRule<D>(page, MarkdownStreamLit.ContentMessage(id, delta, "append", None), shinyPresent, None);
  }
}
