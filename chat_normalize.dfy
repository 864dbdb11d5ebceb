/**
 * The server's message records and the normalisation of whatever is
 * handed to `append_message` / a stream into one (`contents_shinychat`
 * and `contents_shinychat_chunk` of _chat_normalize.py, with the
 * `ChatMessage` constructor of _chat_types.py).
 */
module ChatNormalize {
  import opened Common

  /**
   * Message content: a plain string (markdown), an `HTML` string, or the
   * HTML of a UI object after the session has rendered it.
   */
  datatype Content = Text(s: string) | Html(s: string)

  /** `str(content)` */
  function ContentString(c: Content): string
  {
    match c
      case Text(s) => s
      case Html(s) => s
  }

  /** A UI value that is not a string: `None`, a tag or other tagifiable, or a tag list. */
  datatype UiObject = UiNone | UiTag(html: string, deps: seq<string>)

  /** What the session's `_process_ui` produces for a UI value: its HTML and its dependencies. */
  function ProcessUi(u: UiObject): (r: (string, seq<string>))
    ensures u.UiNone? ==> r == ("", [])
    ensures u.UiTag? ==> r == (u.html, u.deps)
  {
    match u
      case UiNone => ("", [])
      case UiTag(html, deps) => (html, deps)
  }

  /** A `ChatMessage`: content, role and the HTML dependencies of rendered UI content. */
  datatype ChatMessage = ChatMessage(content: Content, role: string, deps: seq<string>)

  /** What may be given as a message's content. */
  datatype ContentIn = StrIn(s: string) | HtmlIn(s: string) | UiIn(u: UiObject)

  /**
   * The `ChatMessage` constructor: string content (plain or `HTML`) is
   * kept as it is; anything else is rendered by the session, becoming its
   * HTML text plus dependencies.
   */
  function MakeMessage(content: ContentIn, role: string): (m: ChatMessage)
    ensures m.role == role
    ensures content.StrIn? ==> m == ChatMessage(Text(content.s), role, [])
    ensures content.HtmlIn? ==> m == ChatMessage(Html(content.s), role, [])
    ensures content.UiIn? ==> m.content == Text(ProcessUi(content.u).0) && m.deps == ProcessUi(content.u).1
  {
    match content
      case StrIn(s) => ChatMessage(Text(s), role, [])
      case HtmlIn(s) => ChatMessage(Html(s), role, [])
      case UiIn(u) =>
        var (html, deps) := ProcessUi(u);
        ChatMessage(Text(html), role, deps)
  }

  /** LangChain content: a string, or a list of content parts. */
  datatype LangChainContent = LcText(s: string) | LcList

  /** The kinds of object the normalisers dispatch on. */
  datatype Incoming =
    | Plain(content: ContentIn)
      /** a `dict`; `content` and `role` are `None` when the key is missing */
    | Dict(dictContent: Option<ContentIn>, dictRole: Option<string>)
      /** any other object with a `tagify` method */
    | Tagifiable(tag: UiObject)
    | LangChainMessage(lc: LangChainContent)
    | LangChainChunk(lcChunk: LangChainContent)
    | OpenAiCompletion(message: Option<string>)
    | OpenAiCompletionChunk(delta: Option<string>)
      /** an Anthropic `Message`, by the type of its first content block */
    | AnthropicMessage(firstType: string, firstText: string)
      /** an Anthropic stream event, by its type and, for deltas, the delta's type */
    | AnthropicEvent(eventType: string, deltaType: string, deltaText: string)
    | GoogleResponse(text: string)
    | OllamaResponse(ollamaContent: string)
    | Unsupported

  datatype NormalizeError =
    | MissingContentKey(chunk: bool)
    | ContentIsList(chunk: bool)
    | UnsupportedAnthropicType(contentType: string)
    | UnsupportedAnthropicDelta(deltaType: string)
    | UnsupportedType(chunk: bool)

  /** The error's text; the unsupported-type message also names the value, not modelled here. */
  function ErrorText(e: NormalizeError): string
  {
    match e
      case MissingContentKey(chunk) =>
        (if chunk then "Chunk" else "Message") + " dictionary must have a 'content' key"
      case ContentIsList(chunk) =>
        if chunk then "The `chunk.content` provided seems to represent numerous messages. "
                      + "Consider iterating over `chunk.content` and calling .append_message() on each iteration."
        else "The `message.content` provided seems to represent numerous messages. "
             + "Consider iterating over `message.content` and calling .append_message() on each iteration."
      case UnsupportedAnthropicType(t) =>
        "Anthropic message type " + t + " not supported. Only 'text' type is currently supported"
      case UnsupportedAnthropicDelta(t) =>
        "Anthropic message delta type " + t + " not supported. Only 'text_delta' type is supported"
      case UnsupportedType(chunk) =>
        "Don't know how to extract content for message" + (if chunk then " chunk" else "") + " type"
  }

  /** An OpenAI content that may be `None`. */
  function OptionalText(s: Option<string>): ContentIn
  {
    if s.Some? then StrIn(s.value) else UiIn(UiNone)
  }

  /** The dictionary rule shared by both normalisers. */
  function FromDict(content: Option<ContentIn>, role: Option<string>, chunk: bool): (r: Result<ChatMessage, NormalizeError>)
    ensures content.None? <==> r == Err(MissingContentKey(chunk))
    ensures content.Some? ==> r.Ok? && r.value == MakeMessage(content.value, if role.Some? then role.value else "assistant")
  {
    if content.None? then Err(MissingContentKey(chunk))
    else Ok(MakeMessage(content.value, if role.Some? then role.value else "assistant"))
  }

  /** `contents_shinychat`: one whole message. */
  function ContentsShinychat(x: Incoming): (r: Result<ChatMessage, NormalizeError>)
    ensures r.Err? <==>
              || (x.Dict? && x.dictContent.None?)
              || x == LangChainMessage(LcList) || x == LangChainChunk(LcList)
              || (x.AnthropicMessage? && x.firstType != "text")
              || x.AnthropicEvent? || x.OpenAiCompletionChunk? || x.Unsupported?
    ensures r.Ok? && !x.Dict? ==> r.value.role == "assistant"
  {
    match x
      case Plain(c) => Ok(MakeMessage(c, "assistant"))
      case Dict(c, role) => FromDict(c, role, false)
      case Tagifiable(t) => Ok(MakeMessage(UiIn(t), "assistant"))
      case LangChainMessage(LcText(s)) => Ok(MakeMessage(StrIn(s), "assistant"))
      case LangChainMessage(LcList) => Err(ContentIsList(false))
      case LangChainChunk(LcText(s)) => Ok(MakeMessage(StrIn(s), "assistant"))
      case LangChainChunk(LcList) => Err(ContentIsList(false))
      case OpenAiCompletion(m) => Ok(MakeMessage(OptionalText(m), "assistant"))
      case AnthropicMessage(t, text) =>
        if t != "text" then Err(UnsupportedAnthropicType(t)) else Ok(MakeMessage(StrIn(text), "assistant"))
      case GoogleResponse(text) => Ok(MakeMessage(StrIn(text), "assistant"))
      case OllamaResponse(c) => Ok(MakeMessage(StrIn(c), "assistant"))
      case _ => Err(UnsupportedType(false))
  }

  /** `contents_shinychat_chunk`: one piece of a streamed message. */
  function ContentsShinychatChunk(x: Incoming): (r: Result<ChatMessage, NormalizeError>)
    ensures r.Err? <==>
              || (x.Dict? && x.dictContent.None?)
              || x == LangChainChunk(LcList)
              || (x.AnthropicEvent? && x.eventType == "content_block_delta" && x.deltaType != "text_delta")
              || x.AnthropicMessage? || x.OpenAiCompletion? || x.LangChainMessage? || x.Unsupported?
    ensures r.Ok? && !x.Dict? ==> r.value.role == "assistant"
  {
    match x
      case Plain(c) => Ok(MakeMessage(c, "assistant"))
      case Dict(c, role) => FromDict(c, role, true)
      case Tagifiable(t) => Ok(MakeMessage(UiIn(t), "assistant"))
      case LangChainChunk(LcText(s)) => Ok(MakeMessage(StrIn(s), "assistant"))
      case LangChainChunk(LcList) => Err(ContentIsList(true))
      case OpenAiCompletionChunk(d) => Ok(MakeMessage(OptionalText(d), "assistant"))
      case AnthropicEvent(eventType, deltaType, text) =>
        if eventType != "content_block_delta" then Ok(MakeMessage(StrIn(""), "assistant"))
        else if deltaType != "text_delta" then Err(UnsupportedAnthropicDelta(deltaType))
        else Ok(MakeMessage(StrIn(text), "assistant"))
      case GoogleResponse(text) => Ok(MakeMessage(StrIn(text), "assistant"))
      case OllamaResponse(c) => Ok(MakeMessage(StrIn(c), "assistant"))
      case _ => Err(UnsupportedType(true))
  }

  /** A string, `HTML` or `None` becomes an assistant message with that content, for messages and chunks alike. */
  lemma PlainContentUnchanged(c: ContentIn)
    ensures ContentsShinychat(Plain(c)) == ContentsShinychatChunk(Plain(c))
    ensures ContentsShinychat(Plain(c)).Ok?
    ensures var m := ContentsShinychat(Plain(c)).value;
            && m.role == "assistant"
            && (c.StrIn? ==> m.content == Text(c.s) && m.deps == [])
            && (c.HtmlIn? ==> m.content == Html(c.s) && m.deps == [])
            && (c == UiIn(UiNone) ==> m.content == Text("") && m.deps == [])
  {
  }

  /**
   * A dictionary without `content` fails; otherwise its role is taken
   * from `role` or defaults to `"assistant"`, for messages and chunks.
   */
  lemma DictRule(content: Option<ContentIn>, role: Option<string>)
    ensures content.None? ==>
              ContentsShinychat(Dict(content, role)) == Err(MissingContentKey(false))
              && ContentsShinychatChunk(Dict(content, role)) == Err(MissingContentKey(true))
    ensures content.Some? ==>
              && ContentsShinychat(Dict(content, role)).Ok?
              && ContentsShinychatChunk(Dict(content, role)).Ok?
              && ContentsShinychat(Dict(content, role)).value == ContentsShinychatChunk(Dict(content, role)).value
              && ContentsShinychat(Dict(content, role)).value.role == (if role.Some? then role.value else "assistant")
  {
  }

  /** A LangChain message or chunk whose content is a list is refused. */
  lemma LangChainListRefused()
    ensures ContentsShinychat(LangChainMessage(LcList)).Err?
    ensures ContentsShinychat(LangChainChunk(LcList)).Err?
    ensures ContentsShinychatChunk(LangChainChunk(LcList)).Err?
  {
  }

  /**
   * Anthropic stream events other than content deltas give an empty
   * assistant chunk; a delta that is not text is refused; a text delta
   * gives its text.
   */
  lemma AnthropicEventRule(eventType: string, deltaType: string, text: string)
    ensures var r := ContentsShinychatChunk(AnthropicEvent(eventType, deltaType, text));
            && (eventType != "content_block_delta" ==> r == Ok(ChatMessage(Text(""), "assistant", [])))
            && (eventType == "content_block_delta" && deltaType != "text_delta" ==> r == Err(UnsupportedAnthropicDelta(deltaType)))
            && (eventType == "content_block_delta" && deltaType == "text_delta" ==> r == Ok(ChatMessage(Text(text), "assistant", [])))
  {
  }

  /** A kind with no handler is refused by both, and each refuses the other's stream-only or whole-only kinds. */
  lemma UnsupportedRefused(x: Incoming)
    ensures x.Unsupported? ==> ContentsShinychat(x) == Err(UnsupportedType(false)) && ContentsShinychatChunk(x) == Err(UnsupportedType(true))
    ensures x.AnthropicEvent? || x.OpenAiCompletionChunk? ==> ContentsShinychat(x) == Err(UnsupportedType(false))
    ensures x.AnthropicMessage? || x.OpenAiCompletion? || x.LangChainMessage? ==> ContentsShinychatChunk(x) == Err(UnsupportedType(true))
  {
  }
}
