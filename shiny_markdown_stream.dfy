/**
 * The `shiny-markdown-stream` custom element of ShinyMarkdownStream.tsx:
 * a wrapper that keeps the content, content type and two flags in
 * private fields, mirrors them in attributes, re-renders the Preact
 * component after every setter, and handles the Shiny message that
 * updates it.
 */
module ShinyMarkdownStream {
  import opened Common
  import opened Utils
  import MarkdownStreamLit

  /** The props of one render of the component. */
  datatype Props = Props(content: string, contentType: string, streaming: bool, autoScroll: bool)

  /** One call of Preact's `render` into the root: the component with its props, or `null`. */
  datatype RenderCall = RenderComponent(props: Props) | RenderNull

  /** The events the element dispatches. */
  datatype DomEvent = ContentChangeEvent(content: string) | StreamEndEvent

  /** The element's observable state. */
  datatype OutputState = OutputState(
    content: string,
    contentType: string,
    streaming: bool,
    autoScroll: bool,
    attrs: map<string, string>,
    mounted: bool,
    renders: seq<RenderCall>)

  /** `getAttribute(name) || fallback`: a missing or empty attribute gives the fallback. */
  function AttrOr(attrs: map<string, string>, name: string, fallback: string): (r: string)
    ensures name in attrs && attrs[name] != "" ==> r == attrs[name]
    ensures name !in attrs || attrs[name] == "" ==> r == fallback
  {
    if name in attrs && attrs[name] != "" then attrs[name] else fallback
  }

  /** `renderValue`: the component is rendered with the current fields, once a root exists. */
  function RenderValue(s: OutputState): (r: OutputState)
    ensures r.(renders := s.renders) == s
    ensures s.mounted ==> r.renders == s.renders + [RenderComponent(Props(s.content, s.contentType, s.streaming, s.autoScroll))]
    ensures !s.mounted ==> r == s
  {
    if s.mounted then s.(renders := s.renders + [RenderComponent(Props(s.content, s.contentType, s.streaming, s.autoScroll))])
    else s
  }

  /** A boolean attribute: present with the empty value when set, absent otherwise. */
  function SetFlag(attrs: map<string, string>, name: string, on: bool): (r: map<string, string>)
    ensures name in r <==> on
    ensures on ==> r[name] == ""
    ensures forall k :: k != name ==> (k in r <==> k in attrs) && (k in r ==> r[k] == attrs[k])
  {
    if on then attrs[name := ""] else attrs - {name}
  }

  /** The content after `updateContent`; an operation other than the two leaves it as it was. */
  function NewContent(current: string, content: string, operation: string): string
  {
    if operation == "replace" then content
    else if operation == "append" then current + content
    else current
  }

  function UpdateContentStep(s: OutputState, content: string, operation: string): (r: OutputState)
  {
    var c := NewContent(s.content, content, operation);
    RenderValue(s.(content := c, attrs := s.attrs["content" := c]))
  }

  function SetStreamingStep(s: OutputState, streaming: bool): OutputState
  {
    RenderValue(s.(streaming := streaming, attrs := SetFlag(s.attrs, "streaming", streaming)))
  }

  function SetContentTypeStep(s: OutputState, contentType: string): OutputState
  {
    RenderValue(s.(contentType := contentType, attrs := s.attrs["content-type" := contentType]))
  }

  function SetAutoScrollStep(s: OutputState, autoScroll: bool): OutputState
  {
    RenderValue(s.(autoScroll := autoScroll, attrs := SetFlag(s.attrs, "auto-scroll", autoScroll)))
  }

  /** `connectedCallback`: mount a root, read the attributes, render. */
  function ConnectedStep(s: OutputState): OutputState
  {
    RenderValue(s.(mounted := true,
                   content := AttrOr(s.attrs, "content", ""),
                   contentType := AttrOr(s.attrs, "content-type", "markdown"),
                   streaming := "streaming" in s.attrs,
                   autoScroll := "auto-scroll" in s.attrs))
  }

  function DisconnectedStep(s: OutputState): (r: OutputState)
    ensures r.(renders := s.renders) == s
    ensures r.renders == s.renders + (if s.mounted then [RenderNull] else [])
  {
    if s.mounted then s.(renders := s.renders + [RenderNull]) else s
  }

  class ShinyMarkdownStreamOutput {
    var content: string
    var contentType: string
    var streaming: bool
    var autoScroll: bool
    var attrs: map<string, string>
    var mounted: bool
    var renders: seq<RenderCall>
    var dispatched: seq<DomEvent>

    function State(): OutputState
      reads this
    {
      OutputState(content, contentType, streaming, autoScroll, attrs, mounted, renders)
    }

    /** A new element with the given attributes and the fields' defaults. */
    constructor(attrs: map<string, string>)
      ensures State() == OutputState("", "markdown", false, false, attrs, false, [])
      ensures dispatched == []
    {
      content := "";
      contentType := "markdown";
      streaming := false;
      autoScroll := false;
      this.attrs := attrs;
      mounted := false;
      renders := [];
      dispatched := [];
    }

    method Render()
      modifies this
      ensures State() == RenderValue(old(State()))
      ensures dispatched == old(dispatched)
    {
      if mounted {
        renders := renders + [RenderComponent(Props(content, contentType, streaming, autoScroll))];
      }
    }

    method ConnectedCallback()
      modifies this
      ensures State() == ConnectedStep(old(State()))
      ensures dispatched == old(dispatched)
    {
      mounted := true;
      content := AttrOr(attrs, "content", "");
      contentType := AttrOr(attrs, "content-type", "markdown");
      streaming := "streaming" in attrs;
      autoScroll := "auto-scroll" in attrs;
      Render();
    }

    /** `disconnectedCallback`: once a root exists, `null` is rendered into it (the root itself stays). */
    method DisconnectedCallback()
      modifies this
      ensures State() == DisconnectedStep(old(State()))
      ensures dispatched == old(dispatched)
    {
      if mounted {
        renders := renders + [RenderNull];
      }
    }

    method UpdateContent(newContent: string, operation: string)
      modifies this
      ensures State() == UpdateContentStep(old(State()), newContent, operation)
      ensures dispatched == old(dispatched)
    {
      if operation == "replace" {
        content := newContent;
      } else if operation == "append" {
        content := content + newContent;
      }
      attrs := attrs["content" := content];
      Render();
    }

    method SetStreaming(on: bool)
      modifies this
      ensures State() == SetStreamingStep(old(State()), on)
      ensures dispatched == old(dispatched)
    {
      streaming := on;
      if on {
        attrs := attrs["streaming" := ""];
      } else {
        attrs := attrs - {"streaming"};
      }
      Render();
    }

    method SetContentType(newType: string)
      modifies this
      ensures State() == SetContentTypeStep(old(State()), newType)
      ensures dispatched == old(dispatched)
    {
      contentType := newType;
      attrs := attrs["content-type" := newType];
      Render();
    }

    method SetAutoScroll(on: bool)
      modifies this
      ensures State() == SetAutoScrollStep(old(State()), on)
      ensures dispatched == old(dispatched)
    {
      autoScroll := on;
      if on {
        attrs := attrs["auto-scroll" := ""];
      } else {
        attrs := attrs - {"auto-scroll"};
      }
      Render();
    }

    /** `handleContentChange`: a `contentchange` event carrying the current content. */
    method HandleContentChange()
      modifies this
      ensures State() == old(State())
      ensures dispatched == old(dispatched) + [ContentChangeEvent(content)]
    {
      dispatched := dispatched + [ContentChangeEvent(content)];
    }

    /** `handleStreamEnd`: a `streamend` event. */
    method HandleStreamEnd()
      modifies this
      ensures State() == old(State())
      ensures dispatched == old(dispatched) + [StreamEndEvent]
    {
      dispatched := dispatched + [StreamEndEvent];
    }
  }

  /** The not-found message names the id twice, on one line. */
  function NotFoundMessage(id: string): (m: ClientMessage)
    ensures m.status == Error && m.headline == ""
  {
    ShowShinyClientMessage(
      "Unable to handle MarkdownStream() message since element with id " + id
      + " wasn't found. Do you need to call .ui() (Express) or need a output_markdown_stream('"
      + id + "') in the UI (Core)?",
      None, Some(Error))
  }

  /**
   * `handleShinyMarkdownStreamMessage`: `el` is the element found by id,
   * if any.  The returned client messages are the not-found error or the
   * dependency failure report.
   */
  method HandleShinyMarkdownStreamMessage<D>(el: ShinyMarkdownStreamOutput?, msg: MarkdownStreamLit.StreamMessage<D>,
                                            shinyPresent: bool, renderError: Option<string>)
    returns (notices: seq<ClientMessage>)
    modifies el
    ensures el == null ==> notices == [NotFoundMessage(msg.id)]
    ensures el != null && msg.StreamingMessage? ==>
              notices == [] && el.State() == SetStreamingStep(old(el.State()), msg.isStreaming)
    ensures el != null && msg.ContentMessage? ==>
              notices == DepsNotices(shinyPresent, msg.htmlDeps, renderError)
              && el.State() == UpdateContentStep(old(el.State()), msg.content, msg.operation)
    ensures el != null ==> el.dispatched == old(el.dispatched)
  {
    if el == null {
      return [NotFoundMessage(msg.id)];
    }
    match msg
    case StreamingMessage(_, isStreaming) =>
      el.SetStreaming(isStreaming);
      notices := [];
    case ContentMessage(_, content, operation, deps) =>
      notices := DepsNotices(shinyPresent, deps, renderError);
      el.UpdateContent(content, operation);
  }

  /**
   * `updateContent`: replace sets, append concatenates, anything else
   * keeps the content; in every case the `content` attribute then equals
   * the stored content, nothing else but the render log changes, and a
   * mounted element renders once with the new content.
   */
  lemma UpdateContentRule(s: OutputState, content: string, operation: string)
    ensures var r := UpdateContentStep(s, content, operation);
            (operation == "replace" ==> r.content == content)
            && (operation == "append" ==> r.content == s.content + content)
            && (operation != "replace" && operation != "append" ==> r.content == s.content)
            && "content" in r.attrs && r.attrs["content"] == r.content
            && r.(content := s.content, attrs := s.attrs, renders := s.renders) == s
            && (s.mounted ==> r.renders == s.renders + [RenderComponent(Props(r.content, s.contentType, s.streaming, s.autoScroll))])
  {
  }

  /** Appends accumulate: two appended deltas give the content plus both. */
  lemma AppendsAccumulate(s: OutputState, a: string, b: string)
    ensures UpdateContentStep(UpdateContentStep(s, a, "append"), b, "append").content == s.content + a + b
  {
  }

  /** The boolean setters store the flag and make the attribute present exactly when it is true. */
  lemma SetFlagsRule(s: OutputState, on: bool)
    ensures var r := SetStreamingStep(s, on);
            r.streaming == on && ("streaming" in r.attrs <==> on)
            && r.(streaming := s.streaming, attrs := s.attrs, renders := s.renders) == s
    ensures var r := SetAutoScrollStep(s, on);
            r.autoScroll == on && ("auto-scroll" in r.attrs <==> on)
            && r.(autoScroll := s.autoScroll, attrs := s.attrs, renders := s.renders) == s
  {
  }

  /** `setContentType` stores the type and mirrors it in the `content-type` attribute. */
  lemma SetContentTypeRule(s: OutputState, t: string)
    ensures var r := SetContentTypeStep(s, t);
            r.contentType == t && "content-type" in r.attrs && r.attrs["content-type"] == t
            && r.(contentType := s.contentType, attrs := s.attrs, renders := s.renders) == s
  {
  }

  /**
   * The attributes the setters write are read back by `connectedCallback`:
   * a reconnected element gets the same flags, type (when not empty) and
   * content (when not empty).
   */
  lemma {:induction false} ConnectedReadsSetters(s: OutputState, content: string, t: string, streaming: bool, autoScroll: bool)
    requires content != "" && t != ""
    ensures var s1 := SetAutoScrollStep(SetStreamingStep(SetContentTypeStep(UpdateContentStep(s, content, "replace"), t), streaming), autoScroll);
            var r := ConnectedStep(s1);
            r.content == content && r.contentType == t && r.streaming == streaming && r.autoScroll == autoScroll
            && r.mounted && r.renders == s1.renders + [RenderComponent(Props(content, t, streaming, autoScroll))]
  {
    var s0 := UpdateContentStep(s, content, "replace");
    var sA := SetContentTypeStep(s0, t);
    var sB := SetStreamingStep(sA, streaming);
    var s1 := SetAutoScrollStep(sB, autoScroll);
    assert s0.attrs["content"] == content;
    assert sA.attrs["content"] == content && sA.attrs["content-type"] == t;
    assert sB.attrs["content"] == content && sB.attrs["content-type"] == t;
    assert "streaming" in sB.attrs <==> streaming;
    assert s1.attrs["content"] == content && s1.attrs["content-type"] == t;
    assert "streaming" in s1.attrs <==> streaming;
    assert "auto-scroll" in s1.attrs <==> autoScroll;
  }
}
