/**
 * The `shiny-markdown-stream` element of markdown-stream-improved.ts:
 * the same attribute mapping and root lifecycle as the clean variant,
 * but its render also schedules a scroll into view while auto-scrolling
 * a stream, and its message handler sets the `content` property
 * directly.
 */
module MarkdownStreamImproved {
  import opened Common
  import opened Utils
  import MarkdownStreamLit
  import opened MarkdownStreamClean

  /** Calls on the React root, and the delayed `scrollIntoView` a render may schedule. */
  datatype ImprovedCall =
    | RenderRenderer(content: string, contentType: string, streaming: bool)
    | ScrollIntoViewScheduled
    | UnmountRoot

  datatype ImprovedState = ImprovedState(root: bool, fields: Fields, attrs: map<string, string>, calls: seq<ImprovedCall>)

  /**
   * `render`: nothing without a root; else a scroll into view is
   * scheduled first when both auto-scroll and streaming are on, then the
   * renderer is rendered with content, type and streaming flag.
   */
  function RenderImproved(s: ImprovedState): (r: ImprovedState)
    ensures r.(calls := s.calls) == s
    ensures !s.root ==> r == s
    ensures s.root ==>
              r.calls == s.calls
                         + (if s.fields.autoScroll && s.fields.streaming then [ScrollIntoViewScheduled] else [])
                         + [RenderRenderer(s.fields.content, s.fields.contentType, s.fields.streaming)]
  {
    if !s.root then s
    else
      var scroll := if s.fields.autoScroll && s.fields.streaming then [ScrollIntoViewScheduled] else [];
      s.(calls := s.calls + scroll + [RenderRenderer(s.fields.content, s.fields.contentType, s.fields.streaming)])
  }

  function SetImproved(s: ImprovedState, f: Fields): ImprovedState
  {
    RenderImproved(s.(fields := f))
  }

  function AttributeChangedImproved(s: ImprovedState, name: string, newValue: Option<string>): ImprovedState
  {
    if name in ObservedAttributes then SetImproved(s, ApplyAttribute(s.fields, name, newValue)) else s
  }

  class ImprovedMarkdownElement {
    var root: bool
    var fields: Fields
    var attrs: map<string, string>
    var calls: seq<ImprovedCall>

    function State(): ImprovedState
      reads this
    {
      ImprovedState(root, fields, attrs, calls)
    }

    constructor(attrs: map<string, string>)
      ensures State() == ImprovedState(false, DefaultFields, attrs, [])
    {
      root := false;
      fields := DefaultFields;
      this.attrs := attrs;
      calls := [];
    }

    method Render()
      modifies this
      ensures State() == RenderImproved(old(State()))
    {
      if root {
        if fields.autoScroll && fields.streaming {
          calls := calls + [ScrollIntoViewScheduled];
        }
        calls := calls + [RenderRenderer(fields.content, fields.contentType, fields.streaming)];
      }
    }

    method SetFields(f: Fields)
      modifies this
      ensures State() == SetImproved(old(State()), f)
    {
      fields := f;
      Render();
    }

    method ConnectedCallback()
      modifies this
      ensures State() == RenderImproved(old(State()).(root := true))
    {
      root := true;
      Render();
    }

    method DisconnectedCallback()
      modifies this
      ensures !root && fields == old(fields) && attrs == old(attrs)
      ensures calls == old(calls) + (if old(root) then [UnmountRoot] else [])
    {
      if root {
        calls := calls + [UnmountRoot];
        root := false;
      }
    }

    method AttributeChangedCallback(name: string, newValue: Option<string>)
      modifies this
      ensures State() == AttributeChangedImproved(old(State()), name, newValue)
    {
      if name in ObservedAttributes {
        SetFields(ApplyAttribute(fields, name, newValue));
      }
    }
  }

  /** A scroll into view is scheduled exactly on renders with a root while auto-scrolling a stream. */
  lemma ScrollScheduledIff(s: ImprovedState, f: Fields)
    ensures ScrollIntoViewScheduled in SetImproved(s, f).calls[|s.calls|..]
            <==> s.root && f.autoScroll && f.streaming
  {
    var r := SetImproved(s, f);
    var added := r.calls[|s.calls|..];
    if s.root {
      assert added == (if f.autoScroll && f.streaming then [ScrollIntoViewScheduled] else [])
                      + [RenderRenderer(f.content, f.contentType, f.streaming)];
    } else {
      assert added == [];
    }
  }

  /**
   * `handleMessage`: a streaming message sets `streaming`; a content
   * message renders dependencies, then sets `content` to the delta or to
   * the old content plus the delta, or throws for an unknown operation.
   * The attributes are not touched.
   */
  method HandleMessage<D>(el: ImprovedMarkdownElement?, msg: MarkdownStreamLit.StreamMessage<D>,
                          shinyPresent: bool, renderError: Option<string>)
    returns (h: Handled)
    modifies el
    ensures el == null ==> h == Handled([MarkdownStreamLit.NotFoundMessage(msg.id)], None)
    ensures el != null && msg.StreamingMessage? ==>
              h == Handled([], None) && el.State() == SetImproved(old(el.State()), old(el.fields).(streaming := msg.isStreaming))
    ensures el != null && msg.ContentMessage? ==>
              h.notices == DepsNotices(shinyPresent, msg.htmlDeps, renderError)
              && (h.thrown.Some? <==> msg.operation != "replace" && msg.operation != "append")
              && (h.thrown.Some? ==> h.thrown.value == "Unknown operation: " + msg.operation
                                     && el.State() == old(el.State()))
              && (msg.operation == "replace" ==>
                    el.State() == SetImproved(old(el.State()), old(el.fields).(content := msg.content)))
              && (msg.operation == "append" ==>
                    el.State() == SetImproved(old(el.State()), old(el.fields).(content := old(el.fields).content + msg.content)))
  {
    if el == null {
      return Handled([MarkdownStreamLit.NotFoundMessage(msg.id)], None);
    }
    match msg
    case StreamingMessage(_, isStreaming) =>
      el.SetFields(el.fields.(streaming := isStreaming));
      h := Handled([], None);
    case ContentMessage(_, content, operation, deps) =>
      var notices := DepsNotices(shinyPresent, deps, renderError);
      if operation == "replace" {
        el.SetFields(el.fields.(content := content));
        h := Handled(notices, None);
      } else if operation == "append" {
        el.SetFields(el.fields.(content := el.fields.content + content));
        h := Handled(notices, None);
      } else {
        h := Handled(notices, Some("Unknown operation: " + operation));
      }
  }

  /**
   * Successive appends accumulate in the `content` property, and a
   * stream of deltas leaves the attribute the page was rendered with
   * unchanged.
   */
  lemma {:induction false} AppendsAccumulate(s: ImprovedState, deltas: seq<string>)
    ensures var r := Appends(s, deltas);
            r.fields == s.fields.(content := s.fields.content + Concat(deltas)) && r.attrs == s.attrs && r.root == s.root
    decreases |deltas|
  {
    if deltas != [] {
      var s1 := SetImproved(s, s.fields.(content := s.fields.content + deltas[0]));
      AppendsAccumulate(s1, deltas[1..]);
      assert s.fields.content + deltas[0] + Concat(deltas[1..]) == s.fields.content + Concat(deltas);
    }
  }

  /** The deltas joined. */
  function Concat(deltas: seq<string>): string
  {
    if deltas == [] then "" else deltas[0] + Concat(deltas[1..])
  }

  /** The state after one `append` content message per delta. */
  function Appends(s: ImprovedState, deltas: seq<string>): ImprovedState
    decreases |deltas|
  {
    if deltas == [] then s
    else Appends(SetImproved(s, s.fields.(content := s.fields.content + deltas[0])), deltas[1..])
  }
}
