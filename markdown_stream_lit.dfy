/**
 * The `shiny-markdown-stream` Lit element of markdown-stream.ts: its
 * scroll bookkeeping across `willUpdate`, `updated` and scroll events,
 * the order of the work done after an update, and the Shiny message
 * handler that rewrites the element's `content` attribute.
 */
module MarkdownStreamLit {
  import opened Common
  import opened Utils
  import opened Scroll

  /** The walk for a scrollable parent stops at the chat container. */
  const ChatContainerTag: string := "shiny-chat-container"

  /** Work `updated` hands to the host, in order. */
  datatype HostEvent =
    | Unbind                  // unbinding Shiny inputs/outputs before new content
    | Bind(throttled: bool)   // binding Shiny inputs/outputs, throttled while streaming
    | ContentChanged          // the `onContentChange` callback
    | StreamEnded             // the `onStreamEnd` callback

  /** The events of one `updated` call. */
  function UpdatedEvents(contentChanged: bool, streamingChanged: bool, streaming: bool,
                         hasOnContentChange: bool, hasOnStreamEnd: bool): seq<HostEvent>
  {
    (if contentChanged then [Bind(streaming)] + (if hasOnContentChange then [ContentChanged] else []) else [])
    + (if streamingChanged && !streaming && hasOnStreamEnd then [StreamEnded] else [])
  }

  /** The scroll state after one `updated` call; `chain` starts at the element itself. */
  function UpdatedScroll(s: ScrollState, contentChanged: bool, autoScroll: bool, streaming: bool,
                         chain: seq<Elem>, layout: Layout): ScrollState
  {
    if !contentChanged then s
    else
      var found := ScrollableParent(autoScroll, chain, ChatContainerTag, layout);
      MaybeScrollStep(SwapScrollable(s, found).(isContentBeingAdded := false), layout, streaming)
  }

  class MarkdownElement {
    var content: string
    var contentType: string
    var streaming: bool
    var autoScroll: bool
    var hasOnContentChange: bool
    var hasOnStreamEnd: bool
    var scroll: ScrollState
    var events: seq<HostEvent>

    constructor()
      ensures content == "" && contentType == "markdown" && !streaming && !autoScroll
      ensures !hasOnContentChange && !hasOnStreamEnd
      ensures scroll == InitialScrollState && events == []
    {
      content := "";
      contentType := "markdown";
      streaming := false;
      autoScroll := false;
      hasOnContentChange := false;
      hasOnStreamEnd := false;
      scroll := InitialScrollState;
      events := [];
    }

    /**
     * `willUpdate`: a content change marks content as being added (scroll
     * events are then ignored) and unbinds the Shiny inputs and outputs.
     */
    method WillUpdate(contentChanged: bool)
      modifies this
      ensures scroll == if contentChanged then old(scroll).(isContentBeingAdded := true) else old(scroll)
      ensures events == old(events) + if contentChanged then [Unbind] else []
      ensures content == old(content) && streaming == old(streaming) && autoScroll == old(autoScroll)
    {
      if contentChanged {
        scroll := scroll.(isContentBeingAdded := true);
        events := events + [Unbind];
      }
    }

    /**
     * `updated`: after a content change, bind, find the scrollable parent,
     * clear the adding flag, maybe scroll, call `onContentChange`; after a
     * streaming change to false, call `onStreamEnd`.  Callback errors are
     * caught, so each call happens and nothing propagates.
     */
    method Updated(contentChanged: bool, streamingChanged: bool, chain: seq<Elem>, layout: Layout)
      modifies this
      ensures scroll == UpdatedScroll(old(scroll), contentChanged, autoScroll, streaming, chain, layout)
      ensures events == old(events) + UpdatedEvents(contentChanged, streamingChanged, streaming,
                                                    hasOnContentChange, hasOnStreamEnd)
      ensures content == old(content) && streaming == old(streaming) && autoScroll == old(autoScroll)
    {
      var added: seq<HostEvent> := [];
      if contentChanged {
        added := [Bind(streaming)];
        var found := FindScrollableParent(autoScroll, chain, ChatContainerTag, layout);
        scroll := SwapScrollable(scroll, found).(isContentBeingAdded := false);
        scroll := MaybeScrollStep(scroll, layout, streaming);
        if hasOnContentChange {
          added := added + [ContentChanged];
        }
      }
      if streamingChanged && !streaming && hasOnStreamEnd {
        added := added + [StreamEnded];
      }
      events := events + added;
    }

    /** The scroll listener. */
    method OnScroll(layout: Layout)
      modifies this
      ensures scroll == OnScrollStep(old(scroll), layout)
      ensures events == old(events)
    {
      if !scroll.isContentBeingAdded {
        scroll := scroll.(isUserScrolled := !IsNearBottom(scroll.scrollable, layout));
      }
    }

    /** `disconnectedCallback`, which runs `cleanup`. */
    method DisconnectedCallback()
      modifies this
      ensures scroll == CleanupStep(old(scroll))
      ensures events == old(events)
    {
      scroll := scroll.(scrollable := None, isUserScrolled := false,
                        listeners := scroll.listeners + DetachFrom(scroll.scrollable));
    }
  }

  /** `onStreamEnd` is called exactly on updates where `streaming` changed to false (and a callback is set). */
  lemma StreamEndRule(contentChanged: bool, streamingChanged: bool, streaming: bool,
                      hasOnContentChange: bool, hasOnStreamEnd: bool)
    ensures StreamEnded in UpdatedEvents(contentChanged, streamingChanged, streaming, hasOnContentChange, hasOnStreamEnd)
            <==> streamingChanged && !streaming && hasOnStreamEnd
    ensures ContentChanged in UpdatedEvents(contentChanged, streamingChanged, streaming, hasOnContentChange, hasOnStreamEnd)
            <==> contentChanged && hasOnContentChange
  {
    var a: seq<HostEvent> := if contentChanged then [Bind(streaming)] + (if hasOnContentChange then [ContentChanged] else []) else [];
    var b: seq<HostEvent> := if streamingChanged && !streaming && hasOnStreamEnd then [StreamEnded] else [];
    assert UpdatedEvents(contentChanged, streamingChanged, streaming, hasOnContentChange, hasOnStreamEnd) == a + b;
    assert StreamEnded !in a;
    assert ContentChanged !in b;
  }

  /**
   * Scroll events between `willUpdate` and the end of `updated` change
   * nothing, and once a content update is through, scroll events count
   * again.
   */
  lemma ScrollIgnoredWhileUpdating(s: ScrollState, layout: Layout, autoScroll: bool, streaming: bool,
                                   chain: seq<Elem>, layout': Layout)
    ensures var adding := s.(isContentBeingAdded := true);
            OnScrollStep(adding, layout) == adding
    ensures !UpdatedScroll(s.(isContentBeingAdded := true), true, autoScroll, streaming, chain, layout').isContentBeingAdded
  {
  }

  /**
   * With auto-scroll off no scrollable element is found, so a content
   * update leaves nothing to scroll and drops any element seen before.
   */
  lemma NoAutoScrollNoScroll(s: ScrollState, streaming: bool, chain: seq<Elem>, layout: Layout)
    ensures var s' := UpdatedScroll(s, true, false, streaming, chain, layout);
            s'.scrollable.None? && s'.scrolls == s.scrolls
  {
  }

  // ---------------------------------------------------------------
  // handleMessage

  /** The two kinds of Shiny message the handler accepts. */
  datatype StreamMessage<D> =
    | ContentMessage(id: string, content: string, operation: string, htmlDeps: Option<seq<D>>)
    | StreamingMessage(id: string, isStreaming: bool)

  /** What the handler can see of one element: its `content` attribute, if set, and its `streaming` flag. */
  datatype StreamElement = StreamElement(contentAttr: Option<string>, streaming: bool)

  /** The result of handling a message: the page, the client messages shown, and the error thrown, if any. */
  datatype Handled = Handled(page: map<string, StreamElement>, notices: seq<ClientMessage>, thrown: Option<string>)

  function NotFoundMessage(id: string): ClientMessage
  {
    ClientMessage("", NotFoundA + NotFoundB + id + NotFoundC + NotFoundD + id + NotFoundE, Error)
  }

  const NotFoundA: string := "Unable to handle MarkdownStream() "
  const NotFoundB: string := "message since element with id\n      "
  const NotFoundC: string := " wasn't found. Do you need to call "
  const NotFoundD: string := ".ui() (Express) or need a\n      output_markdown_stream('"
  const NotFoundE: string := "') in the UI (Core)?"

  /** `content + message.content` in JavaScript, where a missing attribute (`null`) prints as `"null"`. */
  function JsConcatAttr(attr: Option<string>, delta: string): string
  {
    (if attr.Some? then attr.value else "null") + delta
  }

  /**
   * The handler as written: an `append` onto an element without a
   * `content` attribute concatenates onto `null`.
   */
  function HandleMessageAsWritten<D>(page: map<string, StreamElement>, msg: StreamMessage<D>,
                                     shinyPresent: bool, renderError: Option<string>): Handled
  {
    if msg.id !in page then Handled(page, [NotFoundMessage(msg.id)], None)
    else
      var el := page[msg.id];
      match msg
      case StreamingMessage(id, isStreaming) => Handled(page[id := el.(streaming := isStreaming)], [], None)
      case ContentMessage(id, content, op, deps) =>
        var notices := DepsNotices(shinyPresent, deps, renderError);
        if op == "replace" then Handled(page[id := el.(contentAttr := Some(content))], notices, None)
        else if op == "append" then Handled(page[id := el.(contentAttr := Some(JsConcatAttr(el.contentAttr, content)))], notices, None)
        else Handled(page, notices, Some("Unknown operation: " + op))
  }

  /** An append to an element whose `content` attribute was never set produces the text `null` before the delta. */
  lemma AppendOntoMissingAttribute(delta: string)
    ensures var page := map["out" := StreamElement(None, true)];
            var h := HandleMessageAsWritten<int>(page, ContentMessage("out", delta, "append", None), true, None);
            h.page["out"].contentAttr == Some("null" + delta)
  {
  }

  /** The content an `append` builds on: the attribute, or nothing when it is missing. */
  function CurrentContent(el: StreamElement): string
  {
    if el.contentAttr.Some? then el.contentAttr.value else ""
  }

  /** The page with one element's state replaced; every other element is kept. */
  function UpdateElement(page: map<string, StreamElement>, id: string, el: StreamElement): (r: map<string, StreamElement>)
    requires id in page
    ensures r.Keys == page.Keys && r[id] == el
    ensures forall other :: other in page && other != id ==> r[other] == page[other]
  {
    page[id := el]
  }

  /**
   * The handler with the evidently intended `append`: a missing
   * attribute counts as empty content.  Only the addressed element can
   * change.
   */
  function HandleMessage<D>(page: map<string, StreamElement>, msg: StreamMessage<D>,
                            shinyPresent: bool, renderError: Option<string>): (h: Handled)
    ensures h.page.Keys == page.Keys
    ensures forall id :: id in page && id != msg.id ==> h.page[id] == page[id]
  {
    if msg.id !in page then Handled(page, [NotFoundMessage(msg.id)], None)
    else HandleFound(page, msg, shinyPresent, renderError)
  }

  /** The handler once the addressed element is found. */
  function HandleFound<D>(page: map<string, StreamElement>, msg: StreamMessage<D>,
                          shinyPresent: bool, renderError: Option<string>): (h: Handled)
    requires msg.id in page
    ensures h.page.Keys == page.Keys
    ensures forall id :: id in page && id != msg.id ==> h.page[id] == page[id]
  {
    var el := page[msg.id];
    match msg
    case StreamingMessage(id, isStreaming) => Handled(UpdateElement(page, id, el.(streaming := isStreaming)), [], None)
    case ContentMessage(id, content, op, deps) =>
      var notices := DepsNotices(shinyPresent, deps, renderError);
      if op == "replace" then Handled(UpdateElement(page, id, el.(contentAttr := Some(content))), notices, None)
      else if op == "append" then Handled(UpdateElement(page, id, el.(contentAttr := Some(CurrentContent(el) + content))), notices, None)
      else Handled(page, notices, Some("Unknown operation: " + op))
  }

  /**
   * An unknown id only raises the not-found error message; a streaming
   * message sets only the streaming flag; a content message keeps the
   * flag, replaces or appends to the content, reports a dependency
   * failure, and throws exactly for an unknown operation, leaving the
   * page as it was.
   */
  lemma HandleMessageRule<D>(page: map<string, StreamElement>, msg: StreamMessage<D>,
                             shinyPresent: bool, renderError: Option<string>)
    ensures var h := HandleMessage(page, msg, shinyPresent, renderError);
            (msg.id !in page ==> h == Handled(page, [NotFoundMessage(msg.id)], None))
            && (msg.StreamingMessage? && msg.id in page ==>
                  h.page[msg.id] == page[msg.id].(streaming := msg.isStreaming) && h.notices == [] && h.thrown == None)
            && (msg.ContentMessage? && msg.id in page ==>
                  h.page[msg.id].streaming == page[msg.id].streaming
                  && h.notices == DepsNotices(shinyPresent, msg.htmlDeps, renderError)
                  && (h.thrown.Some? <==> msg.operation != "replace" && msg.operation != "append")
                  && (h.thrown.Some? ==> h.page == page && h.thrown.value == "Unknown operation: " + msg.operation)
                  && (msg.operation == "replace" ==> h.page[msg.id].contentAttr == Some(msg.content))
                  && (msg.operation == "append" ==>
                        h.page[msg.id].contentAttr == Some(CurrentContent(page[msg.id]) + msg.content)))
  {
  }

  /** Where the attribute is set, the corrected handler and the handler as written agree. */
  lemma HandleMessageAgreesWhenSet<D>(page: map<string, StreamElement>, msg: StreamMessage<D>,
                                      shinyPresent: bool, renderError: Option<string>)
    requires msg.id in page ==> page[msg.id].contentAttr.Some?
    ensures HandleMessage(page, msg, shinyPresent, renderError) == HandleMessageAsWritten(page, msg, shinyPresent, renderError)
  {
  }

  /** Successive appends accumulate: two deltas in a row equal one append of both. */
  lemma {:induction false} AppendsAccumulate<D>(page: map<string, StreamElement>, id: string, a: string, b: string,
                                               shinyPresent: bool)
    requires id in page
    ensures var h1 := HandleMessage<D>(page, ContentMessage(id, a, "append", None), shinyPresent, None);
            var h2 := HandleMessage<D>(h1.page, ContentMessage(id, b, "append", None), shinyPresent, None);
            var h := HandleMessage<D>(page, ContentMessage(id, a + b, "append", None), shinyPresent, None);
            h2.page == h.page
  {
    var h1 := HandleMessage<D>(page, ContentMessage(id, a, "append", None), shinyPresent, None);
    var h2 := HandleMessage<D>(h1.page, ContentMessage(id, b, "append", None), shinyPresent, None);
    var h := HandleMessage<D>(page, ContentMessage(id, a + b, "append", None), shinyPresent, None);
    var cur := CurrentContent(page[id]);
    HandleMessageRule<D>(page, ContentMessage(id, a, "append", None), shinyPresent, None);
    HandleMessageRule<D>(h1.page, ContentMessage(id, b, "append", None), shinyPresent, None);
    HandleMessageRule<D>(page, ContentMessage(id, a + b, "append", None), shinyPresent, None);
    assert h1.page[id].contentAttr == Some(cur + a);
    assert h2.page[id].contentAttr == Some(cur + a + b);
    assert cur + a + b == cur + (a + b);
    assert h2.page[id] == h.page[id];
  }
}
