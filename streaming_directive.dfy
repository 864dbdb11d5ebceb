/**
 * The `streamingMarkdown` Lit directive: markdown is parsed and sanitized
 * on every change; the first render (and any render of shorter content)
 * builds a fresh `div`, every other change is morphed into that `div`.
 */
module StreamingDirective {
  import opened Common
  import opened Dom
  import opened Host

  /** The constructor's check: the error it throws, if any. */
  function PartTypeError(partType: PartType): (r: Option<string>)
    ensures r.None? <==> partType == ChildPart
    ensures r.Some? ==> r.value == "streamingMarkdown directive must be used in a child position"
  {
    if partType != ChildPart then Some("streamingMarkdown directive must be used in a child position")
    else None
  }

  /** The `div` the directive hands to Lit once and then morphs in place. */
  class ContainerElement {
    var node: Node

    constructor(children: seq<Node>)
      ensures node == Element("div", {}, map[], children)
    {
      node := Element("div", {}, map[], children);
    }
  }

  /** The directive's state as a value: the container is named by its current DOM. */
  datatype State = State(lastContent: string, lastHtml: string, container: Option<Node>)

  const InitialState: State := State("", "", None)

  /** What `render` returns: `noChange`, or the newly built container. */
  datatype RenderOutcome = Unchanged | Built

  /** The morph's `onBeforeElUpdated` hook: every element may be updated (it only restores input focus). */
  predicate AllowUpdate(fromEl: Node)
  {
    true
  }

  const ProtectedTags: set<string> := {"script", "style", "link"}

  /** The morph's `onBeforeNodeDiscarded` hook: scripts, styles and links are never removed. */
  predicate OnBeforeNodeDiscarded(n: Node)
  {
    !(n.Element? && Lower(n.tag) in ProtectedTags)
  }

  /** The guard keeps exactly the `script`, `style` and `link` elements, whatever the case of their tag. */
  lemma DiscardGuardKeeps(n: Node)
    ensures !OnBeforeNodeDiscarded(n) <==>
              n.Element? && (Lower(n.tag) == "script" || Lower(n.tag) == "style" || Lower(n.tag) == "link")
  {
  }

  /** `parse(content, { renderer })` then `sanitizeHTML`. */
  function Sanitized(env: Env, content: string, renderer: Renderer): string
  {
    env.purify(env.parse(content, renderer))
  }

  /** `render(content, renderer)` on the state. */
  function RenderStep(env: Env, s: State, content: string, renderer: Renderer): (RenderOutcome, State)
  {
    if content == s.lastContent then (Unchanged, s)
    else
      var html := Sanitized(env, content, renderer);
      if s.container.None? || |content| < |s.lastContent| then
        (Built, State(content, html, Some(Element("div", {}, map[], env.fragment(html)))))
      else if html != s.lastHtml then
        var div := Element("div", {}, map[], env.fragment(html));
        (Unchanged, State(content, html, Some(env.morph(s.container.value, [div], AllowUpdate, OnBeforeNodeDiscarded))))
      else (Unchanged, s.(lastContent := content))
  }

  class StreamingMarkdownDirective {
    var lastContent: string
    var lastHtml: string
    var container: ContainerElement?

    function Snapshot(): State
      reads this, container
    {
      State(lastContent, lastHtml, if container == null then None else Some(container.node))
    }

    constructor()
      ensures Snapshot() == InitialState
    {
      lastContent := "";
      lastHtml := "";
      container := null;
    }

    /**
     * Returns `null` for `noChange`, or the new container; when a
     * container is kept, it is the same object, morphed.
     */
    method Render(env: Env, content: string, renderer: Renderer) returns (built: ContainerElement?)
      modifies this, container
      ensures (built != null) == (RenderStep(env, old(Snapshot()), content, renderer).0 == Built)
      ensures built != null ==> fresh(built) && container == built
      ensures built == null ==> container == old(container)
      ensures Snapshot() == RenderStep(env, old(Snapshot()), content, renderer).1
    {
      if content == lastContent {
        return null;
      }
      if container == null || |content| < |lastContent| {
        var html := Sanitized(env, content, renderer);
        lastContent := content;
        lastHtml := html;
        var div := new ContainerElement(env.fragment(html));
        container := div;
        return div;
      }
      var newHtml := Sanitized(env, content, renderer);
      if newHtml != lastHtml {
        var newContainer := Element("div", {}, map[], env.fragment(newHtml));
        container.node := env.morph(container.node, [newContainer], AllowUpdate, OnBeforeNodeDiscarded);
        lastHtml := newHtml;
      }
      lastContent := content;
      return null;
    }

    method Disconnected()
      modifies this
      ensures Snapshot() == InitialState
    {
      lastContent := "";
      lastHtml := "";
      container := null;
    }
  }

  /** Rendering the content already shown returns `noChange` and touches nothing. */
  lemma SameContentUnchanged(env: Env, s: State, renderer: Renderer)
    ensures RenderStep(env, s, s.lastContent, renderer) == (Unchanged, s)
  {
  }

  /**
   * For new content, a container is built exactly when there is none yet
   * or the content got shorter; same-length or longer content, even when
   * it does not extend the old, is morphed into the existing one.
   */
  lemma BuildIff(env: Env, s: State, content: string, renderer: Renderer)
    requires content != s.lastContent
    ensures RenderStep(env, s, content, renderer).0 == Built <==> s.container.None? || |content| < |s.lastContent|
  {
  }

  /** Every render that gets past the equality test records the content, and the container exists afterwards. */
  lemma RenderRecordsContent(env: Env, s: State, content: string, renderer: Renderer)
    requires content != s.lastContent
    ensures RenderStep(env, s, content, renderer).1.lastContent == content
    ensures RenderStep(env, s, content, renderer).1.container.Some?
  {
  }

  /**
   * On the morph path the container and `lastHTML` change only when the
   * sanitized HTML differs from the last one, and then `lastHTML` is it.
   */
  lemma MorphOnlyOnNewHtml(env: Env, s: State, content: string, renderer: Renderer)
    requires content != s.lastContent && s.container.Some? && |content| >= |s.lastContent|
    ensures var s' := RenderStep(env, s, content, renderer).1;
            var html := Sanitized(env, content, renderer);
            (html == s.lastHtml ==> s'.container == s.container && s'.lastHtml == s.lastHtml)
            && (html != s.lastHtml ==> s'.lastHtml == html)
  {
  }

  /**
   * After construction or `disconnected`, non-empty content is rendered
   * into a new container, while empty content returns `noChange` and
   * builds none.
   */
  lemma FreshStateRender(env: Env, content: string, renderer: Renderer)
    ensures content != "" ==> RenderStep(env, InitialState, content, renderer).0 == Built
    ensures content == "" ==> RenderStep(env, InitialState, content, renderer) == (Unchanged, InitialState)
  {
  }
}
