# shinychat, modelled in Dafny

shinychat is a chat interface and a streaming-markdown element for Shiny.
This project models the parts of it that make decisions and carry state,
and proves properties about them:

- **Rendering content** (`MarkdownRenderer`, `MarkdownStreamComponent`, `ChatComponents`).
  - Each client converts content to HTML by content type: markdown, semi-markdown, html or text.
  - HTML escaping is proved to be reversible and to leave no markup.
- **The streaming dot** (`StreamingLocator`, `Dom`).
  - The search for the innermost element that receives the dot is bounded.
  - The dot is added, moved and removed over a small node tree.
- **The two render directives** (`IncrementalDirective`, `StreamingDirective`).
  - Each decides between a full render and an in-place morph.
  - Each guards which nodes the morph may update or discard.
- **The `<shiny-markdown-stream>` elements and their message handlers** (`MarkdownStreamLit`, `MarkdownStreamClean`, `MarkdownStreamImproved`, `ShinyMarkdownStream`).
  - These are modelled in four variants.
  - The auto-scroll controller they share is `Scroll`.
- **Small client utilities** (`Utils`): element creation, the sanitizer's script rule, random ids and the trailing-edge throttle.
- **The client message lists** (`ChatTypes`, `ChatComponents`, `ChatReducer`, `UseChatState`, `ChatContainer`).
  - Messages are appended, streamed chunk by chunk, and their loading placeholders are removed.
  - Suggestions are chosen and submitted.
- **Tool cards** (`ChatTools`, `ToolDisplay`).
  - Titles are formatted from a template.
  - Requests are hidden once their result arrives.
  - Results are rendered by value type, and call parameters are rendered as labelled blocks.
- **The Python server** (`ServerChat`, `ChatNormalize`, `ChatNormalizeChatlas`).
  - Provider messages are normalised into chat messages.
  - The `Chat` object holds the stored messages, the text of the current stream, the queue of messages held back during a stream, and the checkpoint that a `replace` returns to.
  - chatlas tool requests and results become tool cards.

Browser and host machinery enters only as parameters:

| machinery | how it is modelled |
|---|---|
| `marked.parse`, DOMPurify, `JSON.parse`, `json.dumps` | function-valued parameters |
| the morph of the DOM | an opaque step guarded by the modelled predicates |
| timers | a single pending-call slot |
| the Shiny session | a log of sent messages plus a flag saying whether the transport is up |

Python exceptions are values (`Result` or `Outcome`). Shared definitions live in `Common`, `Dom` and `Host`.

## Model

| member | source | states |
|---|---|---|
| MarkdownRenderer.EscapeHtmlChar | js/src/markdown-stream/markdown-renderer.ts:33-39 | the chain of five `replaceAll` calls turns one character into its entity: no later replacement touches an entity an earlier one produced |
| MarkdownRenderer.EscapeHtmlIsEscapeEach | js/src/markdown-stream/markdown-renderer.ts:33-39 | the chained replacements, `&` first, equal the character-by-character escape |
| MarkdownRenderer.EscapeHtmlNoMarkup | js/src/markdown-stream/markdown-renderer.ts:33-39 | escaped text contains none of `<`, `>`, `"`, `'` |
| MarkdownRenderer.UnescapeEscape | js/src/markdown-stream/markdown-renderer.ts:33-39 | reading the five entities back (`&amp;` last) restores the input |
| MarkdownRenderer.EscapeHtmlInjective | js/src/markdown-stream/markdown-renderer.ts:33-39 | two inputs with the same escape are equal |
| MarkdownRenderer.EscapeKeepsNewlines | js/src/markdown-stream/markdown-renderer.ts:53-55 | escaping keeps the number of newlines: no line-break markup is added |
| MarkdownRenderer.TableHookStructure | js/src/markdown-stream/markdown-renderer.ts:10-15 | a table starts with the `table table-striped table-bordered` tag and holds the header inside `<thead>` and the body inside `<tbody>` |
| MarkdownRenderer.CodeHook | js/src/markdown-stream/markdown-renderer.ts:19-28 | a block whose info string is exactly `{=html}` is emitted as its raw code; every other block goes to the default code renderer with the same arguments |
| MarkdownRenderer.SemiHtmlHook | js/src/markdown-stream/markdown-renderer.ts:41-44 | raw HTML in a user message is shown as text: no `<` or `>` survives, and the original reads back from the result |
| MarkdownRenderer.RenderToHtml | js/src/markdown-stream/markdown-renderer.ts:48-65 | `html` is returned unchanged, `text` is exactly the escape, any type containing `markdown` is parsed then sanitized, and exactly the other types fail with `Unknown content type: <type>` |
| MarkdownRenderer.RenderTextIsEscapedText | js/src/markdown-stream/markdown-renderer.ts:53-55 | text content renders without markup characters, with its newlines, and reversibly |
| MarkdownRenderer.MarkdownTypesRenderer | js/src/markdown-stream/markdown-renderer.ts:57-62 | only exactly `semi-markdown` selects the escaping renderer; every other markdown type uses the full renderer |
| StreamingLocator.LastMeaningful | js/src/markdown-stream/utils.ts:15-26 | the index found is of a meaningful child (an element or a text node with a non-blank character) with none after it, and there is none exactly when no child is meaningful |
| StreamingLocator.FindLastMeaningful | js/src/markdown-stream/utils.ts:15-26 | the backward scan returns the last meaningful child |
| StreamingLocator.Locate | js/src/markdown-stream/utils.ts:5-45 | the path the search returns has no more steps than the levels left, leads through element children that are not the dot, picks the last meaningful child at every level, and when not empty ends at a block or inline container |
| StreamingLocator.FindInnermostStreamingElement | js/src/markdown-stream/utils.ts:5-45 | the loop of at most five levels returns the element `Locate` describes |
| StreamingLocator.LocateFollowsLastMeaningful | js/src/markdown-stream/utils.ts:28-41 | the `k`-th step of the path is the last meaningful child of the element the first `k` steps lead to |
| StreamingLocator.LocateTargetTag | js/src/markdown-stream/utils.ts:36-41 | the element found is a block container or one of `p`, `h1`-`h6`, `li`, `code`; never any other element, never the dot |
| Dom.ElementChildren | js/src/markdown-stream/incremental-html-directive.ts:31 | `children` keeps only element nodes, and is empty exactly when no child is an element |
| Dom.LastElementChild | js/src/markdown-stream/incremental-html-directive.ts:37 | `lastElementChild` is absent exactly when there is no element child |
| Dom.RemoveFirstDotIn | js/src/markdown-stream/incremental-html-directive.ts:24-26 | `querySelector(...)?.remove()` removes one dot exactly when one exists, and the dot count drops by one |
| Dom.RemoveFirstIsStrip | js/src/markdown-stream/incremental-html-directive.ts:24-26 | while at most one dot exists, removing the first leaves the tree with every dot stripped |
| Dom.AppendDotAddsOne | js/src/chat/components.tsx:227-229 | appending a fresh dot node adds exactly one dot |
| Dom.AppendDotStrips | js/src/chat/components.tsx:227-229 | appending a fresh dot changes nothing else in the tree |
| Dom.MoveDotLeavesOne | js/src/markdown-stream/incremental-html-directive.ts:42-43 | `appendChild` of the one shared dot node leaves exactly one dot in the container, wherever its dots were before |
| Dom.DotsOnPageOnly | js/src/markdown-stream/incremental-html-directive.ts:19-22 | when every other container of the page holds no dot, the page holds just the dots of the one container |
| Dom.MoveSharedDotLeavesOne | js/src/markdown-stream/incremental-html-directive.ts:19-43 | the dot is one node for the whole page: appending it in one container leaves exactly one dot on the page, in that container, and no container changes in anything but dots |
| Dom.MoveDotKeepsContent | js/src/markdown-stream/incremental-html-directive.ts:42-43 | moving the dot changes nothing but the dot |
| Utils.AttrName | js/src/utils/_utils.ts:16-17 | every `_` of the key becomes `-` and nothing else changes |
| Utils.AttrsOfMeaning | js/src/utils/_utils.ts:15-19 | an attribute is set exactly when some entry with a non-null value maps to its name, and holds the value of the last such entry |
| Utils.AttrsOfNoUnderscore | js/src/utils/_utils.ts:16-18 | no attribute name contains `_` |
| Utils.CreateElement | js/src/utils/_utils.ts:10-21 | a new childless element with the tag, whose attributes are those `AttrsOf` describes |
| Utils.ShowShinyClientMessage | js/src/utils/_utils.ts:45-55 | the headline defaults to empty and the status to warning; the message is kept |
| Utils.RenderDependencies | js/src/utils/_utils.ts:57-69 | skipped exactly without Shiny or deps; a failure is reported, never thrown, as an error message `Failed to render HTML dependencies: <error>` |
| Utils.DepsNotices | js/src/utils/_utils.ts:61-68 | at most one client message, present exactly when rendering failed |
| Utils.UponSanitizeElement | js/src/utils/_utils.ts:94-104 | for a `SCRIPT` node `script` is allowed exactly when its type is `application/json` and it has `data-for`; no other entry changes, and other nodes leave the table alone |
| Utils.CustomElement | js/src/utils/_utils.ts:80-86 | a custom element passes exactly when its tag is registered, and then with every attribute |
| Utils.DrawIndex | js/src/utils/_utils.ts:118-124 | each draw picks an index inside the 62-character alphabet |
| Utils.RandomPart | js/src/utils/_utils.ts:111-125 | the random part has one alphabet character per draw |
| Utils.GenerateRandomId | js/src/utils/_utils.ts:111-127 | the id is the prefix, a dash, and `size` alphanumeric characters |
| Utils.Throttle.Call | js/src/utils/_utils.ts:144-153 | a call replaces any pending timer with one for these arguments and runs nothing |
| Utils.Throttle.Elapse | js/src/utils/_utils.ts:149-152 | the timer runs the wrapped function once with the scheduled arguments and clears the slot |
| Utils.BurstRunsOnceWithLast | js/src/utils/_utils.ts:134-157 | a burst of calls followed by the timer runs the wrapped function exactly once, with the last call's arguments |
| IncrementalDirective.PartTypeError | js/src/markdown-stream/incremental-html-directive.ts:65-72 | the constructor throws, with its message, exactly when the part is not a child part |
| IncrementalDirective.RenderToHtmlContainer | js/src/markdown-stream/incremental-html-directive.ts:49-53 | fails exactly when rendering fails; otherwise the rendered content sits between the content-container `div` tags |
| IncrementalDirective.OnBeforeElUpdatedRefuses | js/src/markdown-stream/incremental-html-directive.ts:141-153 | the morph refuses to update exactly the tool request/result elements and elements with `data-shinychat-cache-render` |
| IncrementalDirective.IncrementalUpdate | js/src/markdown-stream/incremental-html-directive.ts:132-155 | the morph fails exactly when rendering the new content fails |
| IncrementalDirective.IncrementalHtmlStream.Update | js/src/markdown-stream/incremental-html-directive.ts:82-123 | the outcome and the new fields are those of `UpdateStep` on the old fields |
| IncrementalDirective.IncrementalHtmlStream.Disconnected | js/src/markdown-stream/incremental-html-directive.ts:126-129 | the last content becomes empty and the last type unknown |
| IncrementalDirective.UpdateFullRenderIff | js/src/markdown-stream/incremental-html-directive.ts:95-105 | with a Lit host, an update re-renders exactly when the type changed or the content does not extend the old, and otherwise returns `noChange` |
| IncrementalDirective.UpdateRecordsArguments | js/src/markdown-stream/incremental-html-directive.ts:99-112 | an update that does not throw records its content and type; one that throws changes nothing |
| IncrementalDirective.UpdateThrowsIff | js/src/markdown-stream/incremental-html-directive.ts:86-111 | an update throws exactly for a non-Lit host or for content the renderer rejects once it must render |
| IncrementalDirective.FirstUpdateIsFullRender | js/src/markdown-stream/incremental-html-directive.ts:61-63 | right after construction or disconnection the update is a full render of the wrapped content |
| IncrementalDirective.SameContentOnlyDot | js/src/markdown-stream/incremental-html-directive.ts:107-120 | the same content and type cause no morph; only the dot changes |
| IncrementalDirective.AppendStreamingDotPlacesOne | js/src/markdown-stream/incremental-html-directive.ts:28-44 | nothing happens without element children or after a tool request; otherwise the container then holds exactly one dot (the one `Locate` placed) and nothing else changes |
| IncrementalDirective.RemoveStreamingDotClears | js/src/markdown-stream/incremental-html-directive.ts:24-26 | with at most one dot, none remains afterwards and nothing else changes |
| IncrementalDirective.IncrementalHtmlStream.constructor | js/src/markdown-stream/incremental-html-directive.ts:59-72 | a directive starts with no previous content and no previous content type |
| StreamingDirective.PartTypeError | js/src/markdown-stream/streaming-markdown-directive.ts:20-27 | the constructor throws, with its message, exactly when the part is not a child part |
| StreamingDirective.ContainerElement.constructor | js/src/markdown-stream/streaming-markdown-directive.ts:46-48 | the new container is a bare `div` holding the parsed children |
| StreamingDirective.DiscardGuardKeeps | js/src/markdown-stream/streaming-markdown-directive.ts:81-89 | the morph never discards a `script`, `style` or `link` element, whatever the case of its tag, and may discard anything else |
| StreamingDirective.StreamingMarkdownDirective.constructor | js/src/markdown-stream/streaming-markdown-directive.ts:14-18 | the state starts with empty content and HTML and no container |
| StreamingDirective.StreamingMarkdownDirective.Render | js/src/markdown-stream/streaming-markdown-directive.ts:29-97 | a container is returned exactly when `RenderStep` builds one, and it is fresh; otherwise the same container object is kept and morphed; the new state is `RenderStep`'s |
| StreamingDirective.StreamingMarkdownDirective.Disconnected | js/src/markdown-stream/streaming-markdown-directive.ts:100-106 | the state returns to its initial value |
| StreamingDirective.SameContentUnchanged | js/src/markdown-stream/streaming-markdown-directive.ts:30-33 | rendering the content already shown returns `noChange` and changes nothing |
| StreamingDirective.BuildIff | js/src/markdown-stream/streaming-markdown-directive.ts:35-51 | for new content a container is built exactly when there is none or the content got shorter; content of the same length or longer is morphed even when it does not extend the old |
| StreamingDirective.RenderRecordsContent | js/src/markdown-stream/streaming-markdown-directive.ts:42-95 | every render past the equality test records the content and leaves a container |
| StreamingDirective.MorphOnlyOnNewHtml | js/src/markdown-stream/streaming-markdown-directive.ts:54-93 | on the morph path, the container and `lastHTML` change only when the sanitized HTML differs, and then `lastHTML` becomes it |
| StreamingDirective.FreshStateRender | js/src/markdown-stream/streaming-markdown-directive.ts:14-51 | after construction or disconnection, non-empty content builds a container, and empty content returns `noChange` |
| Scroll.StopIndex | js/src/markdown-stream/markdown-stream.ts:225-231 | the walk stops at the first ancestor after the start whose lower-cased tag is the chat container's, and at none before it |
| Scroll.FirstScrollable | js/src/markdown-stream/markdown-stream.ts:222-233 | the element found is the first scrollable one before the stop, and without one no element before the stop is scrollable |
| Scroll.FindScrollableParent | js/src/markdown-stream/markdown-stream.ts:218-234 | the loop returns `ScrollableParent`: nothing with auto-scroll off, else the first scrollable element of the walk |
| Scroll.StopTagNeverChosen | js/src/markdown-stream/markdown-stream.ts:226-231 | the chat container is never chosen unless the walk starts at it |
| Scroll.OnScrollRule | js/src/markdown-stream/markdown-stream.ts:195-206 | a scroll event changes only the user-scrolled flag, and only while no content is being added; the flag then says the element is not within 50 pixels of its bottom |
| Scroll.SwapScrollableRule | js/src/markdown-stream/markdown-stream.ts:208-216 | the found element becomes the scrollable one; the listener is detached from the old and attached to the new exactly when they differ |
| Scroll.MaybeScrollRule | js/src/markdown-stream/markdown-stream.ts:236-244 | a scroll happens exactly with a scrollable element and no user scroll, to `scrollHeight - clientHeight`, instant while streaming and smooth otherwise |
| Scroll.CleanupStopsScrolling | js/src/markdown-stream/markdown-stream.ts:246-250 | after cleanup no element is watched, the flag is down and nothing scrolls |
| MarkdownStreamLit.MarkdownElement.constructor | js/src/markdown-stream/markdown-stream.ts:44-193 | empty markdown content, not streaming, no auto-scroll, no callbacks, no scrollable element, flags down |
| MarkdownStreamLit.MarkdownElement.WillUpdate | js/src/markdown-stream/markdown-stream.ts:67-74 | a content change marks content as being added and unbinds the Shiny inputs and outputs; nothing else changes |
| MarkdownStreamLit.MarkdownElement.Updated | js/src/markdown-stream/markdown-stream.ts:76-117 | the scroll state and the host events become those of `UpdatedScroll` and `UpdatedEvents`; the properties are untouched |
| MarkdownStreamLit.MarkdownElement.OnScroll | js/src/markdown-stream/markdown-stream.ts:195-199 | the listener applies the scroll rule and emits no host event |
| MarkdownStreamLit.MarkdownElement.DisconnectedCallback | js/src/markdown-stream/markdown-stream.ts:62-250 | disconnection runs the cleanup |
| MarkdownStreamLit.StreamEndRule | js/src/markdown-stream/markdown-stream.ts:99-116 | `onStreamEnd` is called exactly when `streaming` changed to false and a callback is set; `onContentChange` exactly when the content changed and a callback is set |
| MarkdownStreamLit.ScrollIgnoredWhileUpdating | js/src/markdown-stream/markdown-stream.ts:69-199 | scroll events between `willUpdate` and `updated` change nothing, and after `updated` the adding flag is down again |
| MarkdownStreamLit.NoAutoScrollNoScroll | js/src/markdown-stream/markdown-stream.ts:208-244 | with auto-scroll off a content update finds no element and scrolls nothing |
| MarkdownStreamLit.AppendOntoMissingAttribute | js/src/markdown-stream/markdown-stream.ts:285-287 | an append onto an element whose `content` attribute was never set yields `"null"` followed by the delta |
| MarkdownStreamLit.HandleMessage | js/src/markdown-stream/markdown-stream.ts:259-291 | the corrected handler: the page keeps its ids and only the addressed element can change |
| MarkdownStreamLit.HandleFound | js/src/markdown-stream/markdown-stream.ts:274-290 | once the element is found, the page keeps its ids and only the addressed element can change |
| MarkdownStreamLit.HandleMessageRule | js/src/markdown-stream/markdown-stream.ts:262-290 | an unknown id only shows the not-found message; a streaming message sets only the flag; a content message reports a dependency failure, throws exactly for an unknown operation (page unchanged), replaces, or appends to the current content |
| MarkdownStreamLit.HandleMessageAgreesWhenSet | js/src/markdown-stream/markdown-stream.ts:283-288 | where the attribute is set, the corrected handler equals the handler as written |
| MarkdownStreamLit.AppendsAccumulate | js/src/markdown-stream/markdown-stream.ts:285-287 | two appends in a row equal one append of both deltas |
| MarkdownStreamComponent.ContentToHtml | js/src/components/MarkdownStream.tsx:59-81 | markdown and semi-markdown are parsed with their renderer and sanitized, html is sanitized, text comes out without raw newlines, and exactly the other types throw `Unknown content type: <type>` |
| MarkdownStreamComponent.TextToHtmlIsTextEach | js/src/components/MarkdownStream.tsx:69-76 | the chained replacements of the text branch act character by character |
| MarkdownStreamComponent.TextToHtmlRoundTrip | js/src/components/MarkdownStream.tsx:69-76 | undoing the `<br>`s and then the entities gives back the text: the text branch loses nothing |
| MarkdownStreamComponent.WithDot | js/src/components/MarkdownStream.tsx:442-444 | the final HTML is the content followed by the dot while streaming, by nothing otherwise |
| MarkdownStreamComponent.TextMarkupNotEscaped | js/src/components/MarkdownStream.tsx:437-440 | as written, the text content `<b>` reaches the page as a live `<b>` tag |
| MarkdownStreamComponent.EscapedBold | js/src/components/MarkdownStream.tsx:69-76 | the text branch of `contentToHTML` turns `<b>` into `&lt;b&gt;` |
| MarkdownStreamComponent.FinalHtml | js/src/components/MarkdownStream.tsx:437-444 | corrected: fails exactly when `contentToHTML` throws, and is otherwise its result followed by the dot while streaming |
| MarkdownStreamComponent.FinalHtmlTextEscapes | js/src/components/MarkdownStream.tsx:437-444 | corrected: text content can always be read back from the HTML |
| MarkdownStreamComponent.FinalHtmlEscapesBold | js/src/components/MarkdownStream.tsx:437-444 | corrected: the text `<b>` is shown as the characters `<b>` |
| MarkdownStreamComponent.FinalHtmlAgreesOnPlainText | js/src/components/MarkdownStream.tsx:437-444 | text without markup characters or newlines renders the same either way |
| MarkdownStreamComponent.GetThemeUrl | js/src/components/MarkdownStream.tsx:105-114 | exactly the two default themes have no URL; any other is `<CDN base>/<name>.min.css` |
| MarkdownStreamComponent.FallbackTheme | js/src/components/MarkdownStream.tsx:161-163 | the fallback is the dark default exactly when the name contains `dark`, else the light default |
| MarkdownStreamComponent.FallbackIsEmbedded | js/src/components/MarkdownStream.tsx:105-165 | a fallback theme is always embedded and never loaded from the network |
| MarkdownStreamComponent.MarkdownStreamView.constructor | js/src/components/MarkdownStream.tsx:417-427 | the props default to markdown, not streaming, no auto-scroll, no callbacks |
| MarkdownStreamComponent.MarkdownStreamView.RunContentEffect | js/src/components/MarkdownStream.tsx:534-565 | the refs become those of `ContentEffect`; the props are untouched |
| MarkdownStreamComponent.MarkdownStreamView.FireTimer | js/src/components/MarkdownStream.tsx:83-101 | the throttle timer runs the scheduled scroll and clears its slot |
| MarkdownStreamComponent.MarkdownStreamView.RunStreamingEffect | js/src/components/MarkdownStream.tsx:568-576 | `onStreamEnd` runs when the effect runs with streaming off and a callback given |
| MarkdownStreamComponent.MarkdownStreamView.OnScroll | js/src/components/MarkdownStream.tsx:453-457 | the scroll listener applies the scroll rule to the scroll state only |
| MarkdownStreamComponent.MarkdownStreamView.RunCleanup | js/src/components/MarkdownStream.tsx:579-584 | the cleanup effect applies `CleanupEffect` |
| MarkdownStreamComponent.ContentEffectsState | js/src/components/MarkdownStream.tsx:459-552 | after a burst of content effects the element is the one the walk finds from the container's parent, the flag and the scroll log are as before, and the pending scroll carries the last streaming flag |
| MarkdownStreamComponent.BurstScrollsOnce | js/src/components/MarkdownStream.tsx:485-496 | a burst of content changes followed by the timer scrolls at most once, to the bottom of the element found, with the last change's behaviour, and only if the user has not scrolled away |
| MarkdownStreamComponent.ContentEffectsCallbacks | js/src/components/MarkdownStream.tsx:554-560 | `onContentChange` is called once per content effect when given, never otherwise |
| MarkdownStreamComponent.CleanupKeepsRefs | js/src/components/MarkdownStream.tsx:579-584 | unlike the Lit element, the cleanup only detaches the listener and keeps the element and the user-scrolled flag |
| ShinyMarkdownStream.AttrOr | js/src/components/ShinyMarkdownStream.tsx:42-44 | a missing or empty attribute gives the fallback, any other its value |
| ShinyMarkdownStream.RenderValue | js/src/components/ShinyMarkdownStream.tsx:58-74 | only the render log changes: one render with the current fields once a root exists, none before |
| ShinyMarkdownStream.SetFlag | js/src/components/ShinyMarkdownStream.tsx:104-124 | the boolean attribute is present, with the empty value, exactly when set; no other attribute changes |
| ShinyMarkdownStream.DisconnectedStep | js/src/components/ShinyMarkdownStream.tsx:52-56 | only the render log changes: `null` is rendered exactly when a root exists |
| ShinyMarkdownStream.ShinyMarkdownStreamOutput.constructor | js/src/components/ShinyMarkdownStream.tsx:27-31 | empty markdown content, no flags, no root, nothing rendered or dispatched |
| ShinyMarkdownStream.ShinyMarkdownStreamOutput.Render | js/src/components/ShinyMarkdownStream.tsx:58-74 | the state becomes `RenderValue` of the old state |
| ShinyMarkdownStream.ShinyMarkdownStreamOutput.ConnectedCallback | js/src/components/ShinyMarkdownStream.tsx:33-50 | the state becomes `ConnectedStep` of the old: a root, the fields read from the attributes, one render |
| ShinyMarkdownStream.ShinyMarkdownStreamOutput.DisconnectedCallback | js/src/components/ShinyMarkdownStream.tsx:52-56 | the state becomes `DisconnectedStep` of the old |
| ShinyMarkdownStream.ShinyMarkdownStreamOutput.UpdateContent | js/src/components/ShinyMarkdownStream.tsx:92-100 | the state becomes `UpdateContentStep` of the old |
| ShinyMarkdownStream.ShinyMarkdownStreamOutput.SetStreaming | js/src/components/ShinyMarkdownStream.tsx:102-110 | the state becomes `SetStreamingStep` of the old |
| ShinyMarkdownStream.ShinyMarkdownStreamOutput.SetContentType | js/src/components/ShinyMarkdownStream.tsx:112-116 | the state becomes `SetContentTypeStep` of the old |
| ShinyMarkdownStream.ShinyMarkdownStreamOutput.SetAutoScroll | js/src/components/ShinyMarkdownStream.tsx:118-126 | the state becomes `SetAutoScrollStep` of the old |
| ShinyMarkdownStream.ShinyMarkdownStreamOutput.HandleContentChange | js/src/components/ShinyMarkdownStream.tsx:77-84 | dispatches one `contentchange` event carrying the current content and changes nothing else |
| ShinyMarkdownStream.ShinyMarkdownStreamOutput.HandleStreamEnd | js/src/components/ShinyMarkdownStream.tsx:86-89 | dispatches one `streamend` event and changes nothing else |
| ShinyMarkdownStream.NotFoundMessage | js/src/components/ShinyMarkdownStream.tsx:141-144 | an error client message with no headline naming the missing id |
| ShinyMarkdownStream.HandleShinyMarkdownStreamMessage | js/src/components/ShinyMarkdownStream.tsx:135-160 | a missing element gives only the not-found error; a streaming message calls `setStreaming`; a content message reports dependency failures and then calls `updateContent`; no event is dispatched |
| ShinyMarkdownStream.UpdateContentRule | js/src/components/ShinyMarkdownStream.tsx:92-100 | replace sets, append concatenates, any other operation keeps the content; the `content` attribute then equals the content, nothing else but the render log changes, and a mounted element renders once |
| ShinyMarkdownStream.AppendsAccumulate | js/src/components/ShinyMarkdownStream.tsx:95-96 | two appends give the content followed by both deltas |
| ShinyMarkdownStream.SetFlagsRule | js/src/components/ShinyMarkdownStream.tsx:102-126 | the boolean setters store the flag, make the attribute present exactly when true, and change nothing else but the render log |
| ShinyMarkdownStream.SetContentTypeRule | js/src/components/ShinyMarkdownStream.tsx:112-116 | the type is stored and mirrored in the `content-type` attribute |
| ShinyMarkdownStream.ConnectedReadsSetters | js/src/components/ShinyMarkdownStream.tsx:42-126 | what the setters write, `connectedCallback` reads back: a reconnected element renders with the same content, type and flags |
| MarkdownStreamClean.ApplyAttribute | js/src/markdown-stream/markdown-stream-clean.ts:104-123 | `content` takes the value or `""`, `content-type` the value or `markdown`, the two flags the attribute's presence; any other name changes nothing |
| MarkdownStreamClean.RenderStep | js/src/markdown-stream/markdown-stream-clean.ts:125-138 | only the call log changes: one render with the current props and callbacks once a root exists, none before |
| MarkdownStreamClean.DisconnectedStep | js/src/markdown-stream/markdown-stream-clean.ts:97-102 | the root is gone, and unmounted exactly when there was one |
| MarkdownStreamClean.MarkdownElement.constructor | js/src/markdown-stream/markdown-stream-clean.ts:30-36 | no root, default props, no callbacks, no calls |
| MarkdownStreamClean.MarkdownElement.Render | js/src/markdown-stream/markdown-stream-clean.ts:125-138 | the state becomes `RenderStep` of the old |
| MarkdownStreamClean.MarkdownElement.SetContent | js/src/markdown-stream/markdown-stream-clean.ts:45-48 | the content is stored, then the element renders |
| MarkdownStreamClean.MarkdownElement.SetContentType | js/src/markdown-stream/markdown-stream-clean.ts:53-56 | the type is stored, then the element renders |
| MarkdownStreamClean.MarkdownElement.SetStreaming | js/src/markdown-stream/markdown-stream-clean.ts:61-64 | the flag is stored, then the element renders |
| MarkdownStreamClean.MarkdownElement.SetAutoScroll | js/src/markdown-stream/markdown-stream-clean.ts:69-72 | the flag is stored, then the element renders |
| MarkdownStreamClean.MarkdownElement.SetOnContentChange | js/src/markdown-stream/markdown-stream-clean.ts:77-80 | the callback is stored, then the element renders |
| MarkdownStreamClean.MarkdownElement.SetOnStreamEnd | js/src/markdown-stream/markdown-stream-clean.ts:85-88 | the callback is stored, then the element renders |
| MarkdownStreamClean.MarkdownElement.ConnectedCallback | js/src/markdown-stream/markdown-stream-clean.ts:90-95 | a root is created when missing, then the element renders |
| MarkdownStreamClean.MarkdownElement.DisconnectedCallback | js/src/markdown-stream/markdown-stream-clean.ts:97-102 | the state becomes `DisconnectedStep` of the old |
| MarkdownStreamClean.MarkdownElement.AttributeChangedCallback | js/src/markdown-stream/markdown-stream-clean.ts:104-123 | the mapped prop is set through its setter |
| MarkdownStreamClean.MarkdownElement.SetAttribute | js/src/markdown-stream/markdown-stream-clean.ts:38-175 | the attribute is written and, when observed, the change callback runs |
| MarkdownStreamClean.RenderGuard | js/src/markdown-stream/markdown-stream-clean.ts:90-126 | without a root no setter or attribute change reaches React; with one each renders exactly once; after disconnection nothing renders |
| MarkdownStreamClean.AttributeRoundTrip | js/src/markdown-stream/markdown-stream-clean.ts:104-123 | a non-empty attribute value reads back into its prop |
| MarkdownStreamClean.HandleMessage | js/src/markdown-stream/markdown-stream-clean.ts:147-179 | a missing element gives only the not-found error; a streaming message sets the property; a content message reports dependency failures, throws exactly for an unknown operation (element unchanged), and otherwise writes the `content` attribute with the delta or the old attribute (missing read as empty) plus the delta |
| MarkdownStreamClean.ContentMessageRule | js/src/markdown-stream/markdown-stream-clean.ts:171-175 | after a content message the `content` prop equals the new attribute, and an append onto a missing attribute gives just the delta; other props are kept |
| MarkdownStreamClean.AppendMatchesCorrectedHandler | js/src/markdown-stream/markdown-stream-clean.ts:173-175 | this file's append computes the content of the corrected handler of markdown-stream.ts |
| MarkdownStreamImproved.RenderImproved | js/src/markdown-stream/markdown-stream-improved.ts:111-128 | nothing without a root; with one, a delayed scroll into view is scheduled first when auto-scroll and streaming are both on, then the renderer renders content, type and streaming flag |
| MarkdownStreamImproved.ImprovedMarkdownElement.constructor | js/src/markdown-stream/markdown-stream-improved.ts:30-34 | no root, default props, no calls |
| MarkdownStreamImproved.ImprovedMarkdownElement.Render | js/src/markdown-stream/markdown-stream-improved.ts:111-128 | the state becomes `RenderImproved` of the old |
| MarkdownStreamImproved.ImprovedMarkdownElement.SetFields | js/src/markdown-stream/markdown-stream-improved.ts:44-74 | a setter stores the props, then the element renders |
| MarkdownStreamImproved.ImprovedMarkdownElement.ConnectedCallback | js/src/markdown-stream/markdown-stream-improved.ts:76-81 | a root exists, then the element renders |
| MarkdownStreamImproved.ImprovedMarkdownElement.DisconnectedCallback | js/src/markdown-stream/markdown-stream-improved.ts:83-88 | the root is gone, unmounted exactly when there was one; props and attributes are kept |
| MarkdownStreamImproved.ImprovedMarkdownElement.AttributeChangedCallback | js/src/markdown-stream/markdown-stream-improved.ts:90-109 | the mapped prop is set through its setter |
| MarkdownStreamImproved.ScrollScheduledIff | js/src/markdown-stream/markdown-stream-improved.ts:114-119 | a scroll into view is scheduled exactly on renders with a root while auto-scrolling a stream |
| MarkdownStreamImproved.HandleMessage | js/src/markdown-stream/markdown-stream-improved.ts:137-168 | a missing element gives only the not-found error; a streaming message sets `streaming`; a content message reports dependency failures, throws exactly for an unknown operation (element unchanged), and otherwise sets the `content` property to the delta or the old content plus the delta, leaving attributes alone |
| MarkdownStreamImproved.AppendsAccumulate | js/src/markdown-stream/markdown-stream-improved.ts:163-164 | successive appends accumulate in the `content` property while the attributes stay as the page set them |
| ChatTypes.Plain | js/src/chat/components.tsx:606-610 | a message with only content, role and content type set |
| ChatTypes.OrElse | js/src/chat/components.tsx:593 | JavaScript's `a or b` on an optional string: the value unless absent or empty |
| ChatTypes.UpdateLast | js/src/chat/components.tsx:625-647 | only the last message changes, to the new content or its old content followed by it; an empty list stays empty |
| ChatTypes.RemoveLastIfBlank | js/src/chat/components.tsx:614-623 | the last message is dropped exactly when its content is blank |
| ChatTypes.DropBlank | js/src/components/chat/useChatState.ts:84 | the kept messages are exactly the non-blank ones |
| ChatTypes.DropBlankKeepsNonBlank | js/src/components/chat/useChatState.ts:43-45 | a list with no blank message is left as it is |
| ChatTypes.DropBlankConcat | js/src/components/chat/useChatState.ts:43-45 | the filter distributes over concatenation, so order is kept |
| ChatTypes.ApplyChunkRule | js/src/components/chat/useChatState.ts:37-76 | a start chunk drops the blank messages and goes last with id `streaming-<time>`; any other chunk rewrites only the last message's content (appended or replaced) and chunk type, keeping its role and id, or leaves an empty list alone; input is re-enabled exactly by an end chunk on a non-empty list |
| ChatComponents.ContentToHtml | js/src/chat/components.tsx:81-95 | markdown and semi-markdown are parsed and sanitized, html is sanitized, text is passed through as it is, and exactly the other types throw |
| ChatComponents.EscapeEachFixed | js/src/markdown-stream/markdown-renderer.ts:33-39 | escaping changes exactly the strings that hold one of `& < > " '` |
| ChatComponents.TextAgreesWithRenderToHtmlIff | js/src/chat/components.tsx:90-91 | this file's text conversion agrees with `renderToHTML` exactly on texts without `& < > " '` |
| ChatComponents.OtherTypesAgreeWithRenderToHtml | js/src/chat/components.tsx:82-89 | markdown and semi-markdown convert as in `renderToHTML`; html is sanitized here but passed raw there |
| ChatComponents.MessageStream.constructor | js/src/chat/components.tsx:120-126 | the container starts with the given children |
| ChatComponents.MessageStream.RemoveStreamingDot | js/src/chat/components.tsx:232-235 | the first dot is removed when the container is mounted |
| ChatComponents.MessageStream.AppendStreamingDot | js/src/chat/components.tsx:164-230 | the old dot is removed; for non-blank content not ending in a tool request a fresh copy goes into the innermost streaming element |
| ChatComponents.MessageStream.StreamingEffect | js/src/chat/components.tsx:324-337 | while streaming the dot is appended; otherwise it is removed and `onStreamEnd` is called |
| ChatComponents.DotAppendedKeepsOne | js/src/chat/components.tsx:164-230 | with at most one dot before, exactly one remains when one is wanted and none otherwise; nothing else changes |
| ChatComponents.NoDotWhenBlankOrToolRequest | js/src/chat/components.tsx:168-173 | blank content or a trailing tool request leaves no dot |
| ChatComponents.RemoveDotClears | js/src/chat/components.tsx:232-235 | with at most one dot, removal leaves none and nothing else changes |
| ChatComponents.DotEffectsKeepAtMostOne | js/src/chat/components.tsx:324-337 | any run of streaming effects keeps at most one dot and changes nothing else |
| ChatComponents.GetIcon | js/src/chat/components.tsx:368-374 | a user message shows its icon; an assistant message shows the loading dots while blank, else its icon, else the robot |
| ChatComponents.AssistantAlwaysHasIcon | js/src/chat/components.tsx:368-374 | an assistant message always shows a non-empty icon: the robot, the dots or its own |
| ChatComponents.ChatInput.constructor | js/src/chat/components.tsx:436-439 | the box starts empty, not composing, nothing sent, and the key handler of the first render sees that empty value |
| ChatComponents.ChatInput.Rerendered | js/src/chat/components.tsx:458-467 | the key handler is made anew over the current value and `disabled` exactly when composition or blankness changed, else the earlier one is kept |
| ChatComponents.ChatInput.SendWith | js/src/chat/components.tsx:469-485 | the `sendInput` of a render whose value and `disabled` were given: nothing for a blank value or when disabled, otherwise that value goes to Shiny and `onInputSent` and the box is cleared |
| ChatComponents.ChatInput.SendInput | js/src/chat/components.tsx:469-485 | the state becomes `SendStep` of the old: the current render's `sendInput` |
| ChatComponents.ChatInput.OnInput | js/src/chat/components.tsx:450-456 | the box takes the typed value, and the key handler is renewed only if blankness changed |
| ChatComponents.ChatInput.SetComposing | js/src/chat/components.tsx:550-552 | composition starts or ends, and the key handler is renewed when it changes |
| ChatComponents.ChatInput.SetDisabled | js/src/chat/components.tsx:554-561 | a new `disabled` prop, which alone does not renew the key handler |
| ChatComponents.ChatInput.OnKeyDown | js/src/chat/components.tsx:458-467 | as written: the state becomes `KeyDownStep` of the old, which calls the `sendInput` captured with the handler, and the default is prevented exactly when the key submits |
| ChatComponents.SendStepRule | js/src/chat/components.tsx:469-485 | a value is sent exactly when it is non-blank and the input enabled, and the box is then cleared; otherwise nothing changes |
| ChatComponents.StepsKeepKeyFresh | js/src/chat/components.tsx:441-485 | every step keeps the captured value blank exactly when the box's is, since blankness is a dependency of the handler |
| ChatComponents.KeyDownSendsIff | js/src/chat/components.tsx:458-467 | as written: a key sends exactly for Enter without Shift, outside composition, with a non-blank box, when the captured value is non-blank and the captured render enabled; it sends the captured value |
| ChatComponents.TypingKeepsFirstHandler | js/src/chat/components.tsx:450-467 | as written: typing two non-blank values in a row leaves the handler over the first |
| ChatComponents.StaleKeyDownSendsEarlierValue | js/src/chat/components.tsx:458-467 | as written: after typing `h` then `hi`, Enter sends `h`; the corrected handler sends `hi` |
| ChatComponents.KeyDownFixedSendsIff | js/src/chat/components.tsx:458-467 | corrected: a key sends exactly for Enter without Shift, outside composition, with a non-blank box when enabled, and sends what the box holds |
| ChatComponents.KeyDownAgreesWhenCurrent | js/src/chat/components.tsx:458-485 | where the captured render saw the current value and `disabled`, the handler as written and the corrected one act alike |
| ChatComponents.WithAssistantIcon | js/src/chat/components.tsx:592-594 | an assistant message without an icon gets the configured one; others are unchanged |
| ChatComponents.ChatApp.constructor | js/src/chat/components.tsx:582-587 | no messages, input enabled, the default placeholder |
| ChatComponents.ChatApp.AppendMessage | js/src/chat/components.tsx:590-603 | the state becomes `AppendStep` of the old |
| ChatComponents.ChatApp.AddLoadingMessage | js/src/chat/components.tsx:605-612 | the state becomes `LoadingStep` of the old |
| ChatComponents.ChatApp.RemoveLoadingMessage | js/src/chat/components.tsx:614-623 | the state becomes `RemoveLoadingStep` of the old |
| ChatComponents.ChatApp.UpdateLastMessage | js/src/chat/components.tsx:625-647 | the state becomes `UpdateLastStep` of the old |
| ChatComponents.ChatApp.FinalizeMessage | js/src/chat/components.tsx:649-651 | input is re-enabled |
| ChatComponents.ChatApp.ClearMessages | js/src/chat/components.tsx:653-655 | the messages are emptied and nothing else changes |
| ChatComponents.ChatApp.UpdateUserInputs | js/src/chat/components.tsx:657-665 | the placeholder is updated when given, and a value is forwarded to the mounted input with its submit and focus options |
| ChatComponents.ChatApp.OnInputSent | js/src/chat/components.tsx:667-678 | the user's message, then a loading message |
| ChatComponents.ChatApp.HandleInputSentEvent | js/src/chat/components.tsx:690-694 | the `shiny-chat-input-sent` event's message is appended as given, then a loading message |
| ChatComponents.InputSentEventAddsTwo | js/src/chat/components.tsx:690-694 | the event adds exactly two messages: its own, changed only in id and assistant icon, then an empty assistant message; earlier messages stay |
| ChatComponents.ChatApp.HandleAppendChunk | js/src/chat/components.tsx:701-716 | the state becomes `AppendChunkStep` of the old |
| ChatComponents.ChatApp.HandleRemoveLoadingMessage | js/src/chat/components.tsx:725-728 | the loading message is removed, then input re-enabled |
| ChatComponents.AppendStepRule | js/src/chat/components.tsx:590-603 | earlier messages stay, one is added at the end with id `msg-<time>` and the icon rule applied, and input is disabled |
| ChatComponents.RemoveLoadingStepRule | js/src/chat/components.tsx:614-623 | at most the last message is dropped, and only when blank |
| ChatComponents.AppendChunkRule | js/src/chat/components.tsx:701-716 | a start chunk adds a message; any other keeps the length and every message but the last, whose content is appended or replaced, and only an end chunk re-enables input |
| ChatComponents.OnInputSentAddsTwo | js/src/chat/components.tsx:667-678 | sending adds exactly the user's semi-markdown message and an empty assistant markdown message, and disables input |
| ChatComponents.SendThenRemoveLoading | js/src/chat/components.tsx:614-678 | removing the loading message right after sending takes away exactly it and re-enables input |
| UseChatState.ChatStateHook.constructor | js/src/components/chat/useChatState.ts:26-29 | the initial messages, an empty box, input enabled |
| UseChatState.ChatStateHook.AppendMessage | js/src/components/chat/useChatState.ts:32-35 | the state becomes `AppendStep` of the old |
| UseChatState.ChatStateHook.AppendMessageChunk | js/src/components/chat/useChatState.ts:37-76 | the state becomes `ChunkStep` of the old |
| UseChatState.ChatStateHook.ClearMessages | js/src/components/chat/useChatState.ts:78-81 | no messages, input enabled |
| UseChatState.ChatStateHook.RemoveLoadingMessage | js/src/components/chat/useChatState.ts:83-86 | the state becomes `RemoveLoadingStep` of the old |
| UseChatState.ChatStateHook.UpdateUserInputs | js/src/components/chat/useChatState.ts:89-100 | only a given value changes the box |
| UseChatState.ChatStateHook.HandleInputSent | js/src/components/chat/useChatState.ts:102-131 | the state becomes `InputSentStep` of the old, and the user's message goes to `onSendMessage` exactly when there is one |
| UseChatState.AppendStepRule | js/src/components/chat/useChatState.ts:32-35 | earlier messages stay, the message goes last, and input is re-enabled |
| UseChatState.ChunkStepRule | js/src/components/chat/useChatState.ts:37-76 | a start chunk replaces the blank messages by itself at the end; any other chunk changes only the last message, nothing on an empty list, and only an end chunk re-enables input |
| UseChatState.RemoveLoadingStepRule | js/src/components/chat/useChatState.ts:83-86 | no blank message remains, every other one is kept, input is enabled |
| UseChatState.InputSentStepRule | js/src/components/chat/useChatState.ts:102-131 | the box is always cleared and disabled; the user's message and an empty assistant message are appended exactly without `onSendMessage` |
| ChatReducer.FilterLoading | js/src/chat/components-improved.tsx:110-117 | the filter never lengthens the list |
| ChatReducer.FilterLoadingIsRemoveLastIfBlank | js/src/chat/components-improved.tsx:110-117 | the index-based filter drops exactly a blank last message |
| ChatReducer.MarkStreaming | js/src/chat/components-improved.tsx:124-132 | same length; messages with the id get the flag, every other message is unchanged |
| ChatReducer.AddMessageRule | js/src/chat/components-improved.tsx:85-93 | the message goes last, keeping its id when it has a non-empty one and getting `msg-<time>` otherwise; earlier messages stay; input is disabled |
| ChatReducer.UpdateLastMessageRule | js/src/chat/components-improved.tsx:94-109 | an empty list returns the same state; otherwise only the last message's content changes, appended or replaced |
| ChatReducer.RemoveLoadingMessageRule | js/src/chat/components-improved.tsx:110-117 | at most the last message is dropped, and only when blank; nothing else changes |
| ChatReducer.SettersChangeOneField | js/src/chat/components-improved.tsx:118-123 | `SET_INPUT_DISABLED`, `SET_PLACEHOLDER` and `CLEAR_MESSAGES` each change only their own field |
| ChatReducer.SetMessageStreamingRule | js/src/chat/components-improved.tsx:124-132 | length, order and every field but `streaming` are kept; only messages with the id get the flag |
| ChatReducer.UnrecognisedUnchanged | js/src/chat/components-improved.tsx:133-134 | any other action type returns the state unchanged |
| ChatReducer.ChatApp.constructor | js/src/chat/components-improved.tsx:517-526 | no messages, input enabled, the default placeholder, the configured assistant icon |
| ChatReducer.ChatApp.Dispatch | js/src/chat/components-improved.tsx:526 | the state becomes the reducer's result |
| ChatReducer.ChatApp.AppendMessage | js/src/chat/components-improved.tsx:528-534 | the `ADD_MESSAGE` action with a fresh id is applied |
| ChatReducer.ChatApp.HandleAppendChunk | js/src/chat/components-improved.tsx:585-608 | the chunk's actions are applied in order |
| ChatReducer.ChatApp.OnInputSent | js/src/chat/components-improved.tsx:548-569 | the two messages are added, and the text goes to Shiny as `<id>-input` exactly when Shiny is present |
| ChatReducer.ChatApp.HandleRemoveLoadingMessage | js/src/chat/components-improved.tsx:619-622 | the loading message is removed, then input re-enabled |
| ChatReducer.AppendChunkRule | js/src/chat/components-improved.tsx:585-608 | a start chunk adds one message with a fresh id and keeps input disabled; any other chunk keeps the length and every message but the last, and re-enables input exactly when it is an end chunk |
| ChatReducer.InputSentAddsTwo | js/src/chat/components-improved.tsx:548-562 | submitting adds exactly the user's semi-markdown message and the loading message, with fresh ids, and disables input |
| ChatContainer.Displayed | js/src/components/chat/ChatContainer.tsx:35-36 | the `messages` prop is shown when non-empty, the component's own list otherwise |
| ChatContainer.Closest | js/src/components/chat/ChatContainer.tsx:112 | the nearest element on the way up that matches `.suggestion, [data-suggestion]`, or none when none matches |
| ChatContainer.GetSuggestion | js/src/components/chat/ChatContainer.tsx:107-128 | nothing for a non-element target or no match; else `data-suggestion`, or the text when it is missing or empty, with empty text giving none; submit exactly for class `submit` or `data-suggestion-submit` empty or `true` |
| ChatContainer.ShouldSubmit | js/src/components/chat/ChatContainer.tsx:88-91 | Cmd/Ctrl forces submission, otherwise Alt forces none, otherwise the element's wish, defaulting to no |
| ChatContainer.SuggestionEvent | js/src/components/chat/ChatContainer.tsx:82-105 | ignored exactly without a suggestion; handed to `onSuggestionClick` when given; otherwise set into a capable textarea, focused exactly when not submitted |
| ChatContainer.SuggestionKeydown | js/src/components/chat/ChatContainer.tsx:76-80 | only Enter and Space act, as a click would |
| ChatContainer.SubmitSuggestionClick | js/src/components/chat/ChatContainer.tsx:82-128 | a modifier-free click on a submit-marked suggestion submits its text without focusing the box |
| ChatContainer.Container.constructor | js/src/components/chat/ChatContainer.tsx:30-32 | no own messages, an empty box, input disabled as the prop says |
| ChatContainer.Container.AppendMessage | js/src/components/chat/ChatContainer.tsx:131-134 | the same step as the hook's `appendMessage` |
| ChatContainer.Container.AppendMessageChunk | js/src/components/chat/ChatContainer.tsx:136-174 | the same step as the hook's `appendMessageChunk` |
| ChatContainer.Container.ClearMessages | js/src/components/chat/ChatContainer.tsx:176-178 | the own list is emptied and, unlike the hook's, input is left as it is |
| ChatContainer.Container.RemoveLoadingMessage | js/src/components/chat/ChatContainer.tsx:198-203 | the same step as the hook's `removeLoadingMessage` |
| ChatContainer.Container.HandleInputSent | js/src/components/chat/ChatContainer.tsx:44-69 | with an external list the message only goes to `onSendMessage`; otherwise it and a loading message are appended; input ends disabled |
| ChatContainer.ExternalListWins | js/src/components/chat/ChatContainer.tsx:35-36 | while an external list is given, the own operations never change what is shown |
| ChatContainer.InputSentShowsTwo | js/src/components/chat/ChatContainer.tsx:44-69 | with no external list, sending shows the user's message and a loading message after the old ones |
| ChatTools.LanguageOrDefault | js/src/chat/chat-tools.ts:282 | a missing language defaults to `markdown`; a given one is used as it is |
| ChatTools.MarkdownCodeBlock | js/src/chat/chat-tools.ts:282-285 | the fenced block has eight backticks on each side and the content is recovered exactly from between the fences |
| ChatTools.CodeBlockInjective | js/src/chat/chat-tools.ts:282-285 | two different contents never give the same code block |
| ChatTools.IndexOf | js/src/chat/chat-tools.ts:55 | a found index is a real occurrence of the pattern |
| ChatTools.IndexOfFirst | js/src/chat/chat-tools.ts:55 | the found index is the first occurrence; with none found, no position holds the pattern |
| ChatTools.ReplaceJsAt | js/src/chat/chat-tools.ts:55 | `String.prototype.replace` with a string pattern and a replacement free of `$` splices the replacement in at the first occurrence and leaves a string without the pattern unchanged |
| ChatTools.ReplaceFirstAt | js/src/chat/chat-tools.ts:55 | the literal first-occurrence replacement splices the replacement in at the first index |
| ChatTools.ReplaceJsDollarFree | js/src/chat/chat-tools.ts:55 | without `$` in the replacement, `replace` agrees with the literal first-occurrence replacement |
| ChatTools.DisplayTitle | js/src/chat/chat-tools.ts:53 | a non-empty title is shown; an empty one falls back to the tool name followed by `()` |
| ChatTools.FormatTitleFillsSlot | js/src/chat/chat-tools.ts:52-57 | the first `{title}` of the template is replaced by the wrapped display title and everything around it is kept |
| ChatTools.FormatTitleNoSlot | js/src/chat/chat-tools.ts:52-57 | a template without `{title}` is shown unchanged |
| ChatTools.FormatTitleAgreesWithoutDollar | js/src/chat/chat-tools.ts:52-57 | when the wrapped title holds no `$`, the code as written and the corrected title agree |
| ChatTools.SubstitutionDoubleDollar | js/src/chat/chat-tools.ts:55 | `$$` in a replacement string stands for one `$` |
| ChatTools.ReplaceSlotWithDollars | js/src/chat/chat-tools.ts:55 | replacing `{title}` with text holding `$$` inserts a single `$` |
| ChatTools.DollarTitleCollapses | js/src/chat/chat-tools.ts:55 | a tool titled `$$` is shown as `$` by the code as written, unlike the corrected title |
| ChatTools.TemplateTitles | js/src/chat/chat-tools.ts:123-195 | corrected: the title is inserted literally; the request, result and failed-result templates give `Running` + title, the title alone, and the title + ` failed` |
| ChatTools.ToolCard.constructor | js/src/chat/chat-tools.ts:17-40 | a card starts collapsed, with no status class and the given identity, icon and template |
| ChatTools.ToolCard.ToggleCollapse | js/src/chat/chat-tools.ts:46-50 | a click flips `expanded` and changes nothing else |
| ChatTools.ToolCard.RenderCard | js/src/chat/chat-tools.ts:59-106 | corrected: the title is inserted literally; `aria-expanded` follows `expanded`; the body is `collapsed` and inert exactly when the card is not expanded; the intent is shown only when non-empty; the title is the formatted title |
| ChatTools.ToggleTwice | js/src/chat/chat-tools.ts:46-50 | two clicks bring the card back to where it was |
| ChatTools.ToolRequest.constructor | js/src/chat/chat-tools.ts:114-125 | a request card is visible, collapsed, titled `Running {title}` and shows the spinner |
| ChatTools.ToolRequest.OnToolRequestHide | js/src/chat/chat-tools.ts:140-144 | the card becomes hidden exactly when the event names its request id, and stays hidden |
| ChatTools.ToolRequest.Render | js/src/chat/chat-tools.ts:146-160 | corrected: the title is inserted literally; a hidden request renders nothing; otherwise a card whose body is the arguments as a `json` code block |
| ChatTools.HiddenAfterIff | js/src/chat/chat-tools.ts:140-144 | after any sequence of hide events a request is hidden if and only if it was hidden already or one of the events named it |
| ChatTools.RenderResultValue | js/src/chat/chat-tools.ts:209-237 | `html` is inserted raw, `text` as a paragraph, `markdown` as markdown, and any other type as a markdown code block holding the value |
| ChatTools.RenderRequest | js/src/chat/chat-tools.ts:239-260 | the call section is absent if and only if the request is not shown or the call is missing or empty; it is folded exactly when the call has more than two lines; the call is recovered from its code block |
| ChatTools.ShortCallInline | js/src/chat/chat-tools.ts:250-258 | a call of at most two lines is shown inline under `Tool call` |
| ChatTools.ToolResult.constructor | js/src/chat/chat-tools.ts:168-187 | a result card starts collapsed with the `{title}` template and keeps the given call, status, value and value type |
| ChatTools.ToolResult.ConnectedCallback | js/src/chat/chat-tools.ts:189-207 | an `error` status sets the danger class, the error icon and the `{title} failed` template; any other status sets the wrench icon only; the hide event carries the card's request id |
| ChatTools.ToolResult.Render | js/src/chat/chat-tools.ts:262-266 | corrected: the title is inserted literally; the body is the request section followed by the result value |
| ChatTools.ConnectResult | js/src/chat/chat-tools.ts:140-207 | corrected: the title is inserted literally; a result hides exactly the request with its id; a failed result is then titled with ` failed` |
| ToolDisplay.ParseAttrToObject | js/src/tool-display/tool-display.ts:121-128 | valid JSON gives the parsed value; anything else gives an empty object |
| ToolDisplay.IntToString | js/src/tool-display/tool-display.ts:97 | `String` of an integer is its decimal digits, with a leading `-` for a negative one |
| ToolDisplay.Entries | js/src/tool-display/tool-display.ts:96 | `Object.entries` gives an object's own entries, one entry per array item or string character, and nothing for other values |
| ToolDisplay.Property | js/src/tool-display/tool-display.ts:75 | an annotation property is found exactly when the parsed value is an object holding that key |
| ToolDisplay.Lookup | js/src/tool-display/tool-display.ts:75-76 | a key is found exactly when some entry has it, and the value found is that of the last entry with the key, as `JSON.parse` keeps the last duplicate |
| ToolDisplay.ResultText | js/src/tool-display/tool-display.ts:54 | the result shown is never empty: the error if there is one, else the value, else `No result` |
| ToolDisplay.RenderCodeBlockCode | js/src/tool-display/tool-display.ts:107-112 | the code in a block is escaped, has no markup and decodes back to the code |
| ToolDisplay.RenderCodeBlockLabel | js/src/tool-display/tool-display.ts:107-112 | a block has a label span exactly when a non-empty label is given; the corrected label is escaped and decodes back to the label |
| ToolDisplay.LabelMarkupNotEscaped | js/src/tool-display/tool-display.ts:108-110 | an argument named `<b>` puts a `<b>` tag into the markup as written, which escaping would not |
| ToolDisplay.ParameterBlocks | js/src/tool-display/tool-display.ts:96-98 | corrected: labels are escaped; one labelled block per argument entry, in entry order |
| ToolDisplay.JoinContains | js/src/tool-display/tool-display.ts:98 | every block is found in the joined parameters |
| ToolDisplay.RenderParameters | js/src/tool-display/tool-display.ts:90-105 | corrected: labels are escaped; falsy arguments show nothing; otherwise every entry's block inside an open `Input parameters` section |
| ToolDisplay.ParameterShown | js/src/tool-display/tool-display.ts:90-105 | corrected: labels are escaped; each argument of an object appears in the parameters as its own block |
| ToolDisplay.RenderMainSummary | js/src/tool-display/tool-display.ts:72-88 | an error gives the `failed` class and `Tool <name> failed`, overriding an annotation title; otherwise an annotation title replaces `Tool <name> result`; the name is escaped |
| ToolDisplay.Render | js/src/tool-display/tool-display.ts:52-69 | corrected: labels are escaped; the view is the summary, the result text as a block without label, and the parameters, each from the parsed attributes |
| ToolDisplay.MalformedArgumentsShowEmpty | js/src/tool-display/tool-display.ts:90-128 | arguments that do not parse show an empty parameter section rather than none |
| ToolDisplay.RenderRequest | js/src/tool-display/tool-display.ts:10-17 | the request shows `Running tool:` and the name as escaped text that reads back as the name |
| ToolDisplay.RequestElement.constructor | js/src/tool-display/tool-display.ts:10-12 | a request element starts visible with its call id |
| ToolDisplay.FirstWithId | js/src/tool-display/tool-display.ts:44-46 | the selector finds the first request with the id in document order, and none exactly when no request has it |
| ToolDisplay.HideCorrespondingRequest | js/src/tool-display/tool-display.ts:38-50 | the first request with the result's call id gets `display: none`; no other request changes, and none does when there is no match |
| ChatNormalize.ProcessUi | pkg-py/src/shinychat/_chat_types.py:31-35 | `None` renders to empty HTML with no dependencies; a tag renders to its HTML and its dependencies |
| ChatNormalize.MakeMessage | pkg-py/src/shinychat/_chat_types.py:20-38 | the role is kept; string and `HTML` content is kept as it is with no dependencies; any other content becomes its rendered HTML and carries its dependencies |
| ChatNormalize.FromDict | pkg-py/src/shinychat/_chat_normalize.py:45-97 | a dictionary fails exactly when it has no `content` key; otherwise its content becomes the message, with the given role or `assistant` |
| ChatNormalize.ContentsShinychat | pkg-py/src/shinychat/_chat_normalize.py:12-242 | a whole message fails exactly for a dictionary without content, LangChain list content, a non-text Anthropic block, a stream-only kind or an unsupported kind; every other success is an assistant message |
| ChatNormalize.ContentsShinychatChunk | pkg-py/src/shinychat/_chat_normalize.py:58-247 | a chunk fails exactly for a dictionary without content, LangChain list content, a non-text Anthropic delta, a whole-message-only kind or an unsupported kind; every other success is an assistant message |
| ChatNormalize.PlainContentUnchanged | pkg-py/src/shinychat/_chat_normalize.py:43-90 | a string, `HTML` or `None` becomes the same assistant message whether it is a message or a chunk, its content unchanged and `None` as empty text |
| ChatNormalize.DictRule | pkg-py/src/shinychat/_chat_normalize.py:45-97 | a dictionary without content fails with the message or chunk error; with content both normalisers give the same message, its role taken from `role` or defaulting to `assistant` |
| ChatNormalize.LangChainListRefused | pkg-py/src/shinychat/_chat_normalize.py:126-148 | LangChain content that is a list is refused, for messages and chunks |
| ChatNormalize.AnthropicEventRule | pkg-py/src/shinychat/_chat_normalize.py:195-206 | an Anthropic stream event that is not a content delta gives an empty chunk; a non-text delta is refused; a text delta gives its text |
| ChatNormalize.UnsupportedRefused | pkg-py/src/shinychat/_chat_normalize.py:52-101 | a kind with no handler is refused by both normalisers, and each refuses the kinds only the other handles |
| ChatNormalizeChatlas.ToolDisplayOverride | pkg-py/src/shinychat/_chat_normalize_chatlas.py:307-314 | an unset `SHINYCHAT_TOOL_DISPLAY` means `rich`; the setting is accepted exactly when it is `none`, `basic` or `rich`, and any other value is an error |
| ChatNormalizeChatlas.EscapeText | pkg-py/src/shinychat/_chat_normalize_chatlas.py:52-100 | a string rendered as a tag child carries no markup |
| ChatNormalizeChatlas.RenderTagList | pkg-py/src/shinychat/_chat_normalize_chatlas.py:52-103 | `None` renders to nothing, a string to its escaped text, `HTML` as it is, and a tag to its HTML with its dependencies |
| ChatNormalizeChatlas.FromMapping | pkg-py/src/shinychat/_chat_normalize_chatlas.py:128-234 | a dictionary becomes display options exactly when all its keys are fields of `ToolResultDisplay`; given fields are taken and missing ones default |
| ChatNormalizeChatlas.GetToolResultDisplay | pkg-py/src/shinychat/_chat_normalize_chatlas.py:221-243 | a result whose `extra` is not a dictionary, or the `basic` setting, gives the default display; otherwise the display object, a mapping's fields, or the default with a warning when `display` has another type |
| ChatNormalizeChatlas.ToolResultDisplayValue | pkg-py/src/shinychat/_chat_normalize_chatlas.py:246-265 | an error shows as code; under `basic` the model value shows as code; otherwise html beats markdown beats text, and the model value as code comes last |
| ChatNormalizeChatlas.BasicIgnoresDisplay | pkg-py/src/shinychat/_chat_normalize_chatlas.py:253-254 | under `basic` a result's own display options never reach the card |
| ChatNormalizeChatlas.Intent | pkg-py/src/shinychat/_chat_normalize_chatlas.py:151-197 | the intent is the `_intent` argument when the arguments are a dictionary, and nothing otherwise; a JSON `null` is kept here and dropped when the tag is built |
| ChatNormalizeChatlas.AnnotationTitle | pkg-py/src/shinychat/_chat_normalize_chatlas.py:155-202 | a title is found exactly when the tool has a `title` annotation, and it is that annotation |
| ChatNormalizeChatlas.OrTitle | pkg-py/src/shinychat/_chat_normalize_chatlas.py:210 | a non-empty display title wins over the annotation title |
| ChatNormalizeChatlas.ToolRequestContents | pkg-py/src/shinychat/_chat_normalize_chatlas.py:142-165 | `none` gives an empty tag list; legacy chatlas gives the request itself; otherwise a collapsed request card with the request's id, name, annotation title, intent and dumped arguments |
| ChatNormalizeChatlas.ToolResultContents | pkg-py/src/shinychat/_chat_normalize_chatlas.py:168-218 | `none` gives an empty tag list; legacy chatlas gives the result itself; a result without its request is an error; a card has status `error` exactly when the result has an error, and carries the request id, tool name, call and intent |
| ChatNormalizeChatlas.ResultCardDisplay | pkg-py/src/shinychat/_chat_normalize_chatlas.py:204-218 | the card's title is the display title if non-empty, else the annotation title; `show_request` and `open` come from the display options; the warning is passed on |
| ChatNormalizeChatlas.Attr | pkg-py/src/shinychat/_chat_normalize_chatlas.py:54-64 | an attribute whose value is `None` is dropped; otherwise it is kept with its value |
| ChatNormalizeChatlas.Flag | pkg-py/src/shinychat/_chat_normalize_chatlas.py:61-122 | a boolean attribute is present with an empty value exactly when it is true |
| ChatNormalizeChatlas.IconAttr | pkg-py/src/shinychat/_chat_normalize_chatlas.py:52-59 | the icon attribute carries the rendered icon exactly when the icon is truthy, and is absent otherwise |
| ChatNormalizeChatlas.IntentValue | pkg-py/src/shinychat/_chat_normalize_chatlas.py:60 | an intent that is missing, `null` or `false` gives no value, `true` gives an empty value, and any other value its `str` |
| ChatNormalizeChatlas.IntentAttr | pkg-py/src/shinychat/_chat_normalize_chatlas.py:60 | the `intent` attribute is present exactly when the intent is shown, and carries its value |
| ChatNormalizeChatlas.OptionalAttrNames | pkg-py/src/shinychat/_chat_normalize_chatlas.py:57-60 | `tool-title`, `icon` and `intent` are named exactly when there is a title, a truthy icon and a shown intent |
| ChatNormalizeChatlas.TagifyRequest | pkg-py/src/shinychat/_chat_normalize_chatlas.py:51-64 | a request renders as a `shiny-tool-request` tag carrying the icon's dependencies |
| ChatNormalizeChatlas.RequestNames | pkg-py/src/shinychat/_chat_normalize_chatlas.py:54-63 | a request tag's attribute names are `request-id`, `tool-name` and `arguments`, the card's optional ones, and `expanded` exactly when set |
| ChatNormalizeChatlas.RequestFlags | pkg-py/src/shinychat/_chat_normalize_chatlas.py:61 | on a request tag `expanded` is present exactly when the card is expanded, and then with an empty value |
| ChatNormalizeChatlas.RequestOptionalAttrs | pkg-py/src/shinychat/_chat_normalize_chatlas.py:57-60 | on a request tag a missing title, a falsy icon and an intent that is missing, `null` or `false` leave out their attributes; otherwise each attribute carries the title, the rendered icon or the intent's value |
| ChatNormalizeChatlas.ValueUi | pkg-py/src/shinychat/_chat_normalize_chatlas.py:102-108 | an `html` value is rendered with its dependencies; any other value is `str` of it with none |
| ChatNormalizeChatlas.TagifyResult | pkg-py/src/shinychat/_chat_normalize_chatlas.py:99-125 | a result renders as a `shiny-tool-result` tag carrying the icon's dependencies followed by the value's |
| ChatNormalizeChatlas.ResultNames | pkg-py/src/shinychat/_chat_normalize_chatlas.py:110-125 | a result tag's attribute names are the fixed ones, the card's optional ones, and `show-request` and `expanded` exactly when set |
| ChatNormalizeChatlas.ResultOptionalAttrs | pkg-py/src/shinychat/_chat_normalize_chatlas.py:113-116 | on a result tag the title, icon and intent attributes are present and carry their values exactly as on a request tag |
| ChatNormalizeChatlas.ResultFlags | pkg-py/src/shinychat/_chat_normalize_chatlas.py:121-122 | on a result tag `show-request` and `expanded` are present exactly when their flags are true, and then with an empty value |
| ChatNormalizeChatlas.HideCorrespondingRequest | pkg-py/src/shinychat/_chat_normalize_chatlas.py:268-286 | a `shiny-tool-request-hide` message with the request id is sent exactly when the result has a request and a session exists |
| ChatNormalizeChatlas.IsLegacy | pkg-py/src/shinychat/_chat_normalize_chatlas.py:298-304 | chatlas is legacy exactly when its version is below 0.11.1 |
| ServerChat.Send | pkg-py/src/shinychat/_chat.py:869-878 | sending nothing changes nothing; a send raises exactly when the transport is down and then changes nothing; otherwise the message is added to what was sent |
| ServerChat.AppendMessageOut | pkg-py/src/shinychat/_chat.py:703-746 | a system message sends nothing; otherwise the chunk handler is used exactly for chunks, `message_start` and `message_end` mark exactly the start and end chunks, the content type is `html` exactly for `HTML` content, and content, role, operation, icon and dependencies are carried over |
| ServerChat.ClampIndex | pkg-py/src/shinychat/_chat.py:762-763 | `list.insert` places an index inside the list where it says, counts a negative index from the end, and clamps one outside the list to the nearer end |
| ServerChat.StoreAt | pkg-py/src/shinychat/_chat.py:751-765 | the message is inserted at the clamped index with everything before and after kept in order; with no index it is added at the end; the stored messages gain exactly that message |
| ServerChat.AppendStep | pkg-py/src/shinychat/_chat.py:334-406 | while a stream is active the message is queued and nothing else changes; otherwise a message that does not normalise raises, and one that does is stored at the end and raises only when it must be sent and the transport is down |
| ServerChat.OtherStreamQueued | pkg-py/src/shinychat/_chat.py:504-509 | a chunk of a stream other than the active one is queued with its kind, operation and stream id, and nothing else changes |
| ServerChat.StartsEmpty | pkg-py/src/shinychat/_chat.py:505-545 | the empty start chunk of a stream, with none active, only makes its id the active one, raises nothing and leaves the text, messages and queue alone |
| ServerChat.EndsEmpty | pkg-py/src/shinychat/_chat.py:505-545 | the empty end chunk of the active stream stores the accumulated text as one assistant message, raises nothing, and clears the stream id and text |
| ServerChat.ChunkAccumulates | pkg-py/src/shinychat/_chat.py:511-540 | a non-end chunk makes its stream the active one; `append` extends the text by the chunk's content and `replace` makes it the checkpoint followed by the content; a replacement is sent with the whole new text |
| ServerChat.EndStoresWholeText | pkg-py/src/shinychat/_chat.py:524-545 | an end chunk stores the whole accumulated text as one message with the chunk's role, and resets the stream id, text and checkpoint even when the send raises |
| ServerChat.ReplayInOrder | pkg-py/src/shinychat/_chat.py:688-700 | with no stream active and a live transport, replaying queued whole messages stores them after the existing ones in queue order without raising |
| ServerChat.FlushIsFifo | pkg-py/src/shinychat/_chat.py:688-700 | flushing a queue of whole messages stores them first in, first out and leaves the queue empty |
| ServerChat.FlushRequeuesAfterStart | pkg-py/src/shinychat/_chat.py:688-700 | a flush that replays the start chunk of another stream makes it active, so the whole message queued after it is queued again |
| ServerChat.AcceptKeepsQueue | pkg-py/src/shinychat/_chat.py:510-545 | a chunk of the current stream leaves the queue as it was |
| ServerChat.ChunkKeepsQueue | pkg-py/src/shinychat/_chat.py:495-545 | a chunk never takes anything out of the queue: it is queued itself, or the queue stays as it was |
| ServerChat.ContextNeverFlushes | pkg-py/src/shinychat/_chat.py:409-493 | entering a stream context leaves the queue as it was, and leaving it adds at most its own end chunk; the queue is never flushed there |
| ServerChat.QueueWhileStreaming | pkg-py/src/shinychat/_chat.py:395-398 | messages appended while a stream is active are queued in the order they were appended |
| ServerChat.StreamChunksAccumulate | pkg-py/src/shinychat/_chat.py:681-682 | streaming chunks into the active stream accumulates exactly their texts in order and stores nothing |
| ServerChat.AppendStreamStep | pkg-py/src/shinychat/_chat.py:668-686 | the accumulated text is returned exactly when the call does not raise |
| ServerChat.StreamStoresOneMessage | pkg-py/src/shinychat/_chat.py:668-686 | with no stream active, nothing queued and a live transport, a stream returns the concatenation of its chunks' texts, stores it as one assistant message and leaves no stream active |
| ServerChat.EnterStep | pkg-py/src/shinychat/_chat.py:468-480 | entering a stream context saves the old checkpoint and makes the text so far the checkpoint; a new stream is started exactly when there is none, and a nested context sends nothing |
| ServerChat.ExitStep | pkg-py/src/shinychat/_chat.py:483-493 | leaving a nested context only restores the previous checkpoint |
| ServerChat.EnterRoot | pkg-py/src/shinychat/_chat.py:468-480 | entering the outermost context makes the text so far the checkpoint, starts the fresh stream and sends exactly one empty start chunk |
| ServerChat.ExitRoot | pkg-py/src/shinychat/_chat.py:483-493 | leaving the outermost context stores the stream's text as one assistant message, sends exactly one empty end chunk and resets the stream id, text and checkpoint |
| ServerChat.NestedContextTransparent | pkg-py/src/shinychat/_chat.py:468-493 | a context nested in a stream sends nothing and, left at once, changes nothing |
| ServerChat.ReplaceReturnsToEntry | pkg-py/src/shinychat/_chat.py:468-520 | inside a nested context `replace` puts the new content after the text accumulated when the context was entered |
| ServerChat.RootContextStartsAndEnds | pkg-py/src/shinychat/_chat.py:468-493 | the outermost context, with nothing streamed inside it, sends exactly an empty start chunk and an empty end chunk, stores the text it found as one assistant message and leaves no stream active |
| ServerChat.UpdateUserInputStep | pkg-py/src/shinychat/_chat.py:793-836 | `submit` or `focus` without a value raises and changes nothing; otherwise the update is sent |
| ServerChat.ClearStep | pkg-py/src/shinychat/_chat.py:838-843 | clearing empties the stored messages, keeps the queue and the stream, and raises exactly when the transport is down |
| ServerChat.Chat.constructor | pkg-py/src/shinychat/_chat.py:183-198 | a chat starts with no messages, no stream, an empty queue and an empty checkpoint |
| ServerChat.Chat.SendMessage | pkg-py/src/shinychat/_chat.py:869-878 | the object's new state and outcome are those of `Send` |
| ServerChat.Chat.StoreMessage | pkg-py/src/shinychat/_chat.py:751-765 | the messages become `StoreAt` of the old ones and nothing else changes |
| ServerChat.Chat.SendAppendMessage | pkg-py/src/shinychat/_chat.py:703-746 | the new state and outcome are those of sending `AppendMessageOut` |
| ServerChat.Chat.AppendMessage | pkg-py/src/shinychat/_chat.py:334-406 | the new state and outcome are those of `AppendStep` |
| ServerChat.Chat.AppendMessageChunk | pkg-py/src/shinychat/_chat.py:495-545 | the new state and outcome are those of `ChunkStep` |
| ServerChat.Chat.AcceptMessageChunk | pkg-py/src/shinychat/_chat.py:513-545 | the new state and outcome are those of `AcceptStep`: a chunk that does not normalise raises and changes nothing, any other is accumulated and sent |
| ServerChat.Chat.AccumulateChunk | pkg-py/src/shinychat/_chat.py:516-545 | the new state and outcome are those of `Accumulate` |
| ServerChat.Chat.AcceptChunk | pkg-py/src/shinychat/_chat.py:516-533 | `append` extends the text by the chunk, `replace` makes it the checkpoint followed by the chunk and sends that whole text; an end chunk also stores the text as one message; nothing else changes |
| ServerChat.Chat.StreamWrite | pkg-py/src/shinychat/_chat.py:1295-1331 | `append` and `replace` on a stream object are middle chunks of its stream with that operation |
| ServerChat.Chat.EnterStreamContext | pkg-py/src/shinychat/_chat.py:468-482 | the new state, frame and outcome are those of `EnterStep` |
| ServerChat.Chat.ExitStreamContext | pkg-py/src/shinychat/_chat.py:483-493 | the new state and outcome are those of `ExitStep` |
| ServerChat.Chat.FlushPendingMessages | pkg-py/src/shinychat/_chat.py:688-700 | the new state and outcome are those of `FlushStep` |
| ServerChat.Chat.AppendMessageStream | pkg-py/src/shinychat/_chat.py:668-686 | the new state, outcome and returned text are those of `AppendStreamStep` |
| ServerChat.Chat.UpdateUserInput | pkg-py/src/shinychat/_chat.py:793-836 | the new state and outcome are those of `UpdateUserInputStep` |
| ServerChat.Chat.ClearMessages | pkg-py/src/shinychat/_chat.py:838-843 | the new state and outcome are those of `ClearStep` |

## Left out

- highlight.js, ClipboardJS, the theme `<link>` switching driven by `matchMedia` and `MutationObserver`, `scrollIntoView`, `IntersectionObserver` and textarea sizing: browser machinery with no decision logic of shinychat's own.
- The DOM morph (morphdom), `marked.parse` and DOMPurify: uninterpreted function parameters, so no property of sanitizing or parsing is claimed.
- Real time: `setTimeout` delays, the copy-button state and the 100 ms delays are reduced to events that fire or do not fire.
- Shiny host calls: `bindAll`/`unbindAll`, `renderDependenciesAsync`, `addCustomMessageHandler` and `send_custom_message`. A send is an entry in a log, and a transport failure is the `up` flag being false.
- Python reactivity, `extended_task`, effects, `CHAT_INSTANCES` and bookmarking: framework machinery around the state that is modelled.
- `generateRandomId` and `private_random_id`: the random source is a parameter, and the fresh stream ids are parameters of the steps that need them.
- The `SHINYCHAT_TOOL_DISPLAY` environment variable, chatlas' version and whether a session exists are parameters. `warnings.warn` is a returned flag.
- ChatNormalize.ProcessUi: only the HTML and the dependencies of a rendered tag are modelled. The rendering of a tag into HTML is not.
- The names `normalize_message` and `normalize_message_chunk`, imported at pkg-py/src/shinychat/_chat.py:54, are taken to be `contents_shinychat` and `contents_shinychat_chunk`, which is what pkg-py/src/shinychat/_chat_normalize.py defines.
- ServerChat.WithContent: a `replace` chunk is sent as plain text. Python's concatenation of the checkpoint with `HTML` content is not modelled.
- Provider objects (LangChain, OpenAI, Anthropic, Google, Ollama) are reduced to the fields the normalisers read. `is_tool_result`, a plain `isinstance` test, is not modelled.
- ToolDisplay.StringOf: JSON numbers are integers. `String` of a fractional number is not modelled.
- ToolDisplay.Entries: an object's entries are kept in the order given, and duplicate keys stay separate entries. JavaScript's ordering of integer-like keys first is not modelled, nor its merging of a duplicate key into one property.
- ToolDisplay.HideCorrespondingRequest: the id is compared as a plain string. The quoting of the id inside the CSS selector is not modelled.
- ToolDisplay.RenderMainSummary: an annotation title is inserted raw as the source does. Annotation values are read through `String`.
- The Python card attributes are named `tool-name` and `tool-title`, while the `<shiny-tool-request>`/`<shiny-tool-result>` elements read `name` and `title`. Each side is modelled as written, and the two are not connected.
- `ToolResultDisplay.expanded` is never read by the code and is not modelled.
- The chained assignment at js/src/components/chat/ChatContainer.tsx:253-260 is left out because it does not parse as intended.
- Focus and caret restoration, `makeSuggestionsAccessible`, the external-link modal, and presentational components with no state: these are UI only.
- IncrementalDirective.AppendStreamingDotPlacesOne: the directive is modelled on its own container. The dot leaving the other containers of the page is stated by Dom.MoveSharedDotLeavesOne, which the directive's model does not call.
- ChatComponents.WithAssistantIcon: `appendMessage` writes the icon into the caller's message object (js/src/chat/components.tsx:592-594). The model returns a changed copy and leaves the caller's value as it was. Every caller in the file passes a fresh object or an event's detail that it does not read again.
- ChatNormalizeChatlas.IntentValue: htmltools is not part of this model. A tag attribute of `None` or `False` is taken to be dropped and `True` to be written with an empty value. Any other intent is written as its `str`. Whether htmltools refuses a list or dictionary there is not modelled.
- ChatContainer.SuggestionEvent: the click and keydown handlers are memoised with no dependencies (js/src/components/chat/ChatContainer.tsx:71-79), so they keep the `onSuggestionClick` prop of the first render. The model takes that prop as a parameter and does not model a prop that changes later.
- ChatComponents.ChatApp.OnInputSent: a stale `sendInput` calls the `onInputSent` of its own render. That callback changes only with `iconAssistant`, which the model holds fixed, so the model treats them as one.
- Re-export and relay files (js/src/chat/chat.ts, js/src/chat/chat-improved.ts, js/src/components/index.ts and others) are not modelled because they hold no logic.

## Findings

| source | as written | input that shows it | evidently intended | confidence | as-written member | corrected member |
|---|---|---|---|---|---|---|
| js/src/components/MarkdownStream.tsx:437-440 | text content only has its newlines turned into `<br>` and goes into the page unescaped, bypassing `contentToHTML`, which escapes text | content `<b>x</b>` of type `text` renders as bold markup instead of the literal characters | text is escaped as `contentToHTML` does, then newlines become `<br>` | medium, not executed | MarkdownStreamComponent.TextMarkupNotEscaped | MarkdownStreamComponent.FinalHtmlTextEscapes |
| js/src/markdown-stream/markdown-stream.ts:285-287 | `append` concatenates onto `getAttribute("content")`, which is `null` when the attribute is missing | appending `x` to an element without a `content` attribute gives `nullx` | a missing attribute counts as empty, as js/src/markdown-stream/markdown-stream-clean.ts:174 does | high, not executed | MarkdownStreamLit.AppendOntoMissingAttribute | MarkdownStreamLit.HandleMessageRule |
| js/src/chat/chat-tools.ts:55 | the wrapped title is the replacement string of `String.prototype.replace`, so `$` patterns in it are interpreted | a tool titled `$$` is shown as `$` | the title is inserted literally | high, not executed | ChatTools.DollarTitleCollapses | ChatTools.FormatTitleFillsSlot |
| js/src/tool-display/tool-display.ts:108-110 | a parameter label is put into the HTML unescaped, although the code says input parameters are escaped by hand | an argument named `<b>` puts a `<b>` tag into the card | the label is escaped like the code | medium, not executed | ToolDisplay.LabelMarkupNotEscaped | ToolDisplay.RenderCodeBlockLabel |
| js/src/chat/components.tsx:458-467 | `onKeyDown` is memoised on `isComposing` and `valueIsEmpty` only, so it calls the `sendInput` of the render in which one of those last changed | type `h`, then `i` (the box holds `hi`), press Enter: `h` is sent | the handler sends what the box holds, as js/src/chat/components-improved.tsx:403 has by listing `sendInput` among the dependencies | high, not executed | ChatComponents.StaleKeyDownSendsEarlierValue | ChatComponents.KeyDownFixedSendsIff |
