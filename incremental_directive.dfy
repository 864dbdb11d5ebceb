/**
 * The `incrementalHTMLStream` Lit directive: it remembers the content and
 * content type of the previous update and either re-renders the content
 * container from scratch or morphs it in place, then adds or removes the
 * streaming dot.  The DOM under the Lit host is a `Node` value; the
 * update returns the new content container.
 */
module IncrementalDirective {
  import opened Common
  import opened Dom
  import opened Host
  import opened MarkdownRenderer
  import opened StreamingLocator

  /** The constructor's check: the error it throws, if any. */
  function PartTypeError(partType: PartType): (r: Option<string>)
    ensures r.None? <==> partType == ChildPart
    ensures r.Some? ==> r.value == "IncrementalHTMLStream directive must be used in a child position"
  {
    if partType != ChildPart then Some("IncrementalHTMLStream directive must be used in a child position")
    else None
  }

  /**
   * The parent of the directive's part: a Lit element, through which the
   * content container is found, or anything else (named by its `typeof`).
   */
  datatype Parent = LitHost(htmlContainer: Node) | OtherParent(typeName: string)

  /** What `update` does: throws, hands Lit new HTML to render, or returns `noChange` after editing the DOM. */
  datatype UpdateOutcome = Threw(message: string) | FullRender(html: string) | NoChange(htmlContainer: Node)

  /** The outcome and the directive's fields after an update. */
  datatype Step = Step(outcome: UpdateOutcome, lastContent: string, lastContentType: Option<string>)

  const ContainerOpen: string := "<div class=\"content-container\">\n      "
  const ContainerClose: string := "\n    </div>"

  /** `renderToHTMLContainer`: the rendered content wrapped in the content-container `div`. */
  function RenderToHtmlContainer(env: Env, content: string, contentType: string): (r: Result<string, string>)
    ensures r.Err? <==> RenderToHtml(env, content, contentType).Err?
    ensures r.Err? ==> r.error == RenderToHtml(env, content, contentType).error
    ensures r.Ok? ==> ContainerOpen <= r.value && |r.value| >= |ContainerOpen| + |ContainerClose|
    ensures r.Ok? ==> r.value[|ContainerOpen|..|r.value| - |ContainerClose|] == RenderToHtml(env, content, contentType).value
  {
    match RenderToHtml(env, content, contentType)
    case Err(e) => Err(e)
    case Ok(inner) =>
      var html := ContainerOpen + inner + ContainerClose;
      assert html[|ContainerOpen|..|html| - |ContainerClose|] == inner;
      Ok(html)
  }

  /** A full render is needed when the type changed or the new content does not extend the old. */
  predicate NeedsFullRender(lastContent: string, lastContentType: Option<string>, content: string, contentType: string)
  {
    Some(contentType) != lastContentType || !(lastContent <= content)
  }

  const ToolTags: set<string> := {"shiny-tool-request", "shiny-tool-result"}
  const CacheRenderAttr: string := "data-shinychat-cache-render"

  /**
   * The `onBeforeElUpdated` guard of the morph: tool displays and
   * elements marked for cached rendering are never updated.
   */
  predicate OnBeforeElUpdated(fromEl: Node)
  {
    !(fromEl.Element? && (Lower(fromEl.tag) in ToolTags || CacheRenderAttr in fromEl.attrs))
  }

  /** Without an `onBeforeNodeDiscarded` hook, morphdom may discard any node. */
  predicate DiscardAny(n: Node)
  {
    true
  }

  /** The guard refuses exactly the tool displays and the cache-marked elements. */
  lemma OnBeforeElUpdatedRefuses(fromEl: Node)
    requires fromEl.Element?
    ensures !OnBeforeElUpdated(fromEl) <==>
              Lower(fromEl.tag) == "shiny-tool-request" || Lower(fromEl.tag) == "shiny-tool-result"
              || CacheRenderAttr in fromEl.attrs
  {
  }

  /** `_doIncrementalUpdate`: morph the content container into the freshly rendered HTML. */
  function IncrementalUpdate(env: Env, from: Node, content: string, contentType: string): (r: Result<Node, string>)
    ensures r.Err? <==> RenderToHtml(env, content, contentType).Err?
  {
    match RenderToHtmlContainer(env, content, contentType)
    case Err(e) => Err(e)
    case Ok(html) => Ok(env.morph(from, env.fragment(html), OnBeforeElUpdated, DiscardAny))
  }

  /** The last element child of the container is a tool request. */
  predicate EndsWithToolRequest(c: Node)
  {
    c.Element? && LastElementChild(c.children).Some?
    && Lower(LastElementChild(c.children).value.tag) == "shiny-tool-request"
  }

  /**
   * `appendStreamingDot`: nothing when the container has no element child
   * or ends with a tool request; otherwise the one dot node is appended
   * to the innermost streaming element, which moves it there.
   */
  function AppendStreamingDot(c: Node): (r: Node)
    ensures r.Element? == c.Element?
  {
    if !c.Element? || ElementChildren(c.children) == [] then c
    else if EndsWithToolRequest(c) then c
    else c.(children := MoveDotIn(c.children, Locate(c.children, MaxDepth)))
  }

  /** `removeStreamingDot`: the first dot below the container, if any, is removed. */
  function RemoveStreamingDot(c: Node): (r: Node)
    ensures r.Element? == c.Element?
  {
    if c.Element? then c.(children := RemoveFirstDotIn(c.children).0) else c
  }

  /** The dot handling at the end of an update that does not re-render. */
  function DotStep(c: Node, streaming: bool): Node
  {
    if streaming then AppendStreamingDot(c) else RemoveStreamingDot(c)
  }

  function NotLitElementError(typeName: string): string
  {
    "IncrementalHTMLStream.update() expects a LitElement, not a " + typeName
  }

  /** `update(part, [content, contentType, streaming])` on the directive's fields. */
  function UpdateStep(env: Env, lastContent: string, lastContentType: Option<string>,
                      parent: Parent, content: string, contentType: string, streaming: bool): Step
  {
    match parent
    case OtherParent(t) => Step(Threw(NotLitElementError(t)), lastContent, lastContentType)
    case LitHost(c) =>
      if NeedsFullRender(lastContent, lastContentType, content, contentType) then
        match RenderToHtmlContainer(env, content, contentType)
        case Err(e) => Step(Threw(e), lastContent, lastContentType)
        case Ok(html) => Step(FullRender(html), content, Some(contentType))
      else if content != lastContent then
        match IncrementalUpdate(env, c, content, contentType)
        case Err(e) => Step(Threw(e), lastContent, lastContentType)
        case Ok(c') => Step(NoChange(DotStep(c', streaming)), content, Some(contentType))
      else Step(NoChange(DotStep(c, streaming)), lastContent, lastContentType)
  }

  class IncrementalHtmlStream {
    var lastContent: string
    var lastContentType: Option<string>

    constructor()
      ensures lastContent == "" && lastContentType == None
    {
      lastContent := "";
      lastContentType := None;
    }

    method Update(env: Env, parent: Parent, content: string, contentType: string, streaming: bool)
      returns (outcome: UpdateOutcome)
      modifies this
      ensures Step(outcome, lastContent, lastContentType)
              == UpdateStep(env, old(lastContent), old(lastContentType), parent, content, contentType, streaming)
    {
      if parent.OtherParent? {
        return Threw(NotLitElementError(parent.typeName));
      }
      var container := parent.htmlContainer;
      if Some(contentType) != lastContentType || !(lastContent <= content) {
        var html := RenderToHtmlContainer(env, content, contentType);
        if html.Err? {
          return Threw(html.error);
        }
        lastContent := content;
        lastContentType := Some(contentType);
        return FullRender(html.value);
      }
      if content != lastContent {
        var morphed := IncrementalUpdate(env, container, content, contentType);
        if morphed.Err? {
          return Threw(morphed.error);
        }
        container := morphed.value;
        lastContent := content;
        lastContentType := Some(contentType);
      }
      if streaming {
        container := AppendStreamingDot(container);
      } else {
        container := RemoveStreamingDot(container);
      }
      return NoChange(container);
    }

    method Disconnected()
      modifies this
      ensures lastContent == "" && lastContentType == None
    {
      lastContent := "";
      lastContentType := None;
    }
  }

  /**
   * With a Lit host and content the renderer accepts, the update re-renders
   * exactly when `NeedsFullRender` holds, and otherwise returns `noChange`.
   */
  lemma UpdateFullRenderIff(env: Env, lastContent: string, lastContentType: Option<string>,
                            c: Node, content: string, contentType: string, streaming: bool)
    requires RenderToHtml(env, content, contentType).Ok?
    ensures var s := UpdateStep(env, lastContent, lastContentType, LitHost(c), content, contentType, streaming);
            (s.outcome.FullRender? <==> NeedsFullRender(lastContent, lastContentType, content, contentType))
            && (s.outcome.NoChange? <==> !NeedsFullRender(lastContent, lastContentType, content, contentType))
  {
  }

  /**
   * Every update that does not throw leaves the fields equal to its
   * arguments; one that throws leaves them as they were.
   */
  lemma UpdateRecordsArguments(env: Env, lastContent: string, lastContentType: Option<string>,
                               parent: Parent, content: string, contentType: string, streaming: bool)
    ensures var s := UpdateStep(env, lastContent, lastContentType, parent, content, contentType, streaming);
            (!s.outcome.Threw? ==> s.lastContent == content && s.lastContentType == Some(contentType))
            && (s.outcome.Threw? ==> s.lastContent == lastContent && s.lastContentType == lastContentType)
  {
  }

  /** An update throws exactly for a host that is not a Lit element, or for content the renderer rejects once it has to render. */
  lemma UpdateThrowsIff(env: Env, lastContent: string, lastContentType: Option<string>,
                        parent: Parent, content: string, contentType: string, streaming: bool)
    ensures var s := UpdateStep(env, lastContent, lastContentType, parent, content, contentType, streaming);
            s.outcome.Threw? <==>
              parent.OtherParent?
              || (RenderToHtml(env, content, contentType).Err?
                  && (NeedsFullRender(lastContent, lastContentType, content, contentType) || content != lastContent))
  {
  }

  /**
   * Right after construction or `disconnected` the type is unknown, so
   * the update is a full render of the wrapped content, with no dot.
   */
  lemma FirstUpdateIsFullRender(env: Env, lastContent: string, c: Node, content: string, contentType: string, streaming: bool)
    requires RenderToHtml(env, content, contentType).Ok?
    ensures UpdateStep(env, lastContent, None, LitHost(c), content, contentType, streaming).outcome
            == FullRender(ContainerOpen + RenderToHtml(env, content, contentType).value + ContainerClose)
  {
  }

  /** An update with the same content and type performs no morph: only the dot changes. */
  lemma SameContentOnlyDot(env: Env, lastContent: string, contentType: string, c: Node, streaming: bool)
    ensures UpdateStep(env, lastContent, Some(contentType), LitHost(c), lastContent, contentType, streaming)
            == Step(NoChange(DotStep(c, streaming)), lastContent, Some(contentType))
  {
  }

  /**
   * Appending the dot: nothing happens for a container without element
   * children or ending with a tool request; otherwise the container then
   * holds exactly one dot, inside the innermost streaming element, and
   * apart from dots nothing changed.
   */
  lemma AppendStreamingDotPlacesOne(c: Node)
    requires c.Element?
    ensures ElementChildren(c.children) == [] ==> AppendStreamingDot(c) == c
    ensures EndsWithToolRequest(c) ==> AppendStreamingDot(c) == c
    ensures AppendStreamingDot(c) != c ==>
              DotsIn(AppendStreamingDot(c).children) == 1
              && StripDotsIn(AppendStreamingDot(c).children) == StripDotsIn(c.children)
  {
    if AppendStreamingDot(c) != c {
      var path := Locate(c.children, MaxDepth);
      MoveDotLeavesOne(c.children, path);
      MoveDotKeepsContent(c.children, path);
    }
  }

  /**
   * Removing the dot: with the one dot node there is at most one dot, and
   * afterwards there is none; nothing else changes.
   */
  lemma RemoveStreamingDotClears(c: Node)
    requires c.Element? && DotsIn(c.children) <= 1
    ensures DotsIn(RemoveStreamingDot(c).children) == 0
    ensures StripDotsIn(RemoveStreamingDot(c).children) == StripDotsIn(c.children)
  {
    RemoveFirstIsStrip(c.children);
    StripDotsInNone(StripDotsIn(c.children));
  }
}
