/**
 * The libraries the client code calls but whose insides are not part of
 * this model: `marked.parse`, DOMPurify, the browser's HTML parser
 * (`innerHTML`) and `morphdom`.  Each is a function handed in by the
 * caller; the model states what the code does around them.
 */
module Host {
  import opened Dom

  /**
   * Which hooks of a `marked` renderer object are overridden:
   * Bootstrap-styled tables, the raw `{=html}` code block, and escaping of
   * raw HTML.
   */
  datatype Renderer = Renderer(bootstrapTables: bool, rawHtmlCode: bool, escapesHtml: bool)

  /** Lit's part kinds; both directives are only valid in a child position. */
  datatype PartType = ChildPart | AttributePart | PropertyPart | BooleanAttributePart | EventPart | ElementPart

  datatype Env = Env(
    /** `marked.parse(content, { renderer })` */
    parse: (string, Renderer) -> string,
    /** DOMPurify's `sanitize` with the configuration and hook of `sanitizeHTML` */
    purify: string -> string,
    /** the nodes an HTML string becomes once assigned to `innerHTML` */
    fragment: string -> seq<Node>,
    /**
     * `morphdom(from, to, { onBeforeElUpdated, onBeforeNodeDiscarded })`:
     * the element `from` is brought in line with the children `to`, asking
     * the first predicate before updating an element and the second
     * before discarding a node.
     */
    morph: (Node, seq<Node>, Node -> bool, Node -> bool) -> Node
  )
}
