/**
 * The Preact `MarkdownStream` component of MarkdownStream.tsx: its own
 * content conversion, the HTML it renders (content plus streaming dot),
 * the highlight theme URL and fallback, and the scroll refs updated by
 * its effects, with the scroll to the bottom deferred through a
 * trailing-edge throttle.
 */
module MarkdownStreamComponent {
  import opened Common
  import opened Host
  import MarkdownRenderer
  import Utils
  import opened Scroll

  /** The component's `marked` renderer: only the table hook is customised. */
  const MarkdownHooks: Renderer := Renderer(true, false, false)

  /** The semi-markdown renderer: raw HTML is escaped. */
  const SemiMarkdownHooks: Renderer := Renderer(false, false, true)

  /** One character of text content: a newline becomes a line break, the rest is entity-escaped. */
  function TextChar(c: char): string
  {
    if c == '\n' then "<br>" else MarkdownRenderer.EscapeChar(c)
  }

  function TextEach(s: string): string
  {
    if s == [] then [] else TextChar(s[0]) + TextEach(s[1..])
  }

  /** The `"text"` branch: the five-character escape, then every newline replaced by `<br>`. */
  function TextToHtml(content: string): string
  {
    ReplaceAllChar(MarkdownRenderer.EscapeHtml(content), '\n', "<br>")
  }

  /**
   * `contentToHTML`: markdown and semi-markdown are parsed and sanitized,
   * html is sanitized, text is escaped with line breaks, and any other
   * type throws.
   */
  function ContentToHtml(env: Env, content: string, contentType: string): (r: Result<string, string>)
    ensures contentType == "markdown" ==> r == Ok(env.purify(env.parse(content, MarkdownHooks)))
    ensures contentType == "semi-markdown" ==> r == Ok(env.purify(env.parse(content, SemiMarkdownHooks)))
    ensures contentType == "html" ==> r == Ok(env.purify(content))
    ensures contentType == "text" ==> r.Ok? && '\n' !in r.value
    ensures r.Err? <==> contentType !in {"markdown", "semi-markdown", "html", "text"}
    ensures r.Err? ==> r.error == "Unknown content type: " + contentType
  {
    if contentType == "markdown" then Ok(Utils.SanitizeHtml(env, env.parse(content, MarkdownHooks)))
    else if contentType == "semi-markdown" then Ok(Utils.SanitizeHtml(env, env.parse(content, SemiMarkdownHooks)))
    else if contentType == "html" then Ok(Utils.SanitizeHtml(env, content))
    else if contentType == "text" then Ok(TextToHtml(content))
    else Err("Unknown content type: " + contentType)
  }

  /** The text conversion works character by character. */
  lemma TextToHtmlIsTextEach(s: string)
    ensures TextToHtml(s) == TextEach(s)
  {
    MarkdownRenderer.EscapeHtmlIsEscapeEach(s);
    BreakEscapeEach(s);
  }

  /** Breaking the lines of the character-by-character escape. */
  lemma {:induction false} BreakEscapeEach(s: string)
    ensures ReplaceAllChar(MarkdownRenderer.EscapeEach(s), '\n', "<br>") == TextEach(s)
    decreases |s|
  {
    if s != [] {
      var e := MarkdownRenderer.EscapeChar(s[0]);
      assert MarkdownRenderer.EscapeEach(s) == e + MarkdownRenderer.EscapeEach(s[1..]);
      ReplaceAllCharConcat(e, MarkdownRenderer.EscapeEach(s[1..]), '\n', "<br>");
      BreakEscapeChar(s[0]);
      BreakEscapeEach(s[1..]);
    }
  }

  /** Breaking the lines of one character's escape gives its text rendering. */
  lemma BreakEscapeChar(c: char)
    ensures ReplaceAllChar(MarkdownRenderer.EscapeChar(c), '\n', "<br>") == TextChar(c)
  {
    var e := MarkdownRenderer.EscapeChar(c);
    if c == '\n' {
      assert e == [c];
      ReplaceAllCharSingle(c, '\n', "<br>");
    } else {
      assert '\n' !in e;
      ReplaceAllCharAbsent(e, '\n', "<br>");
    }
  }

  /** Line breaks back to newlines: the left inverse of the `<br>` step. */
  function UnBreak(t: string): string
    decreases |t|
  {
    if t == [] then []
    else if "<br>" <= t then "\n" + UnBreak(t[4..])
    else [t[0]] + UnBreak(t[1..])
  }

  /** A prefix without `<` passes through `UnBreak` unchanged. */
  lemma {:induction false} UnBreakSkips(a: string, t: string)
    requires '<' !in a
    ensures UnBreak(a + t) == a + UnBreak(t)
    decreases |a|
  {
    if a != [] {
      var x := a + t;
      assert x[0] == a[0] && x[1..] == a[1..] + t;
      assert !("<br>" <= x);
      UnBreakSkips(a[1..], t);
    } else {
      assert a + t == t;
    }
  }

  /** No escaped character starts with or holds a `<`. */
  lemma EscapeCharNoLt(c: char)
    ensures '<' !in MarkdownRenderer.EscapeChar(c)
  {
    var e := MarkdownRenderer.EscapeChar(c);
    if c == '&' {
      assert e == "&amp;";
    } else if c == '<' {
      assert e == "&lt;";
    } else if c == '>' {
      assert e == "&gt;";
    } else if c == '"' {
      assert e == "&quot;";
    } else if c == '\'' {
      assert e == "&#039;";
    } else {
      assert e == [c];
    }
  }

  lemma {:induction false} UnBreakTextEach(s: string)
    ensures UnBreak(TextEach(s)) == MarkdownRenderer.EscapeEach(s)
    decreases |s|
  {
    if s != [] {
      var c := s[0];
      var rest := TextEach(s[1..]);
      UnBreakTextEach(s[1..]);
      assert TextEach(s) == TextChar(c) + rest;
      assert MarkdownRenderer.EscapeEach(s) == MarkdownRenderer.EscapeChar(c) + MarkdownRenderer.EscapeEach(s[1..]);
      if c == '\n' {
        BreakPrefix(rest);
      } else {
        EscapeCharNoLt(c);
        UnBreakSkips(MarkdownRenderer.EscapeChar(c), rest);
      }
    }
  }

  lemma BreakPrefix(t: string)
    ensures UnBreak("<br>" + t) == "\n" + UnBreak(t)
  {
    var x := "<br>" + t;
    assert "<br>" <= x;
    assert x[4..] == t;
  }

  /**
   * Text conversion loses nothing: undoing the line breaks and then the
   * entities gives back the content, so distinct texts render
   * differently.
   */
  lemma TextToHtmlRoundTrip(s: string)
    ensures MarkdownRenderer.UnescapeHtml(UnBreak(TextToHtml(s))) == s
  {
    TextToHtmlIsTextEach(s);
    UnBreakTextEach(s);
    MarkdownRenderer.EscapeHtmlIsEscapeEach(s);
    MarkdownRenderer.UnescapeEscape(s);
  }

  // ---------------------------------------------------------------
  // The rendered HTML

  /** The streaming dot as markup. */
  const SvgDot: string :=
    "<svg width=\"12\" height=\"12\" xmlns=\"http://www.w3.org/2000/svg\" class=\"markdown-stream-dot\" "
    + "style=\"margin-left:.25em;margin-top:-.25em\"><circle cx=\"6\" cy=\"6\" r=\"6\"/></svg>"

  /** The dot follows the content while streaming, and nothing otherwise. */
  function WithDot(html: string, streaming: bool): (r: string)
    ensures |r| >= |html| && r[..|html|] == html
    ensures r[|html|..] == if streaming then SvgDot else ""
  {
    html + (if streaming then SvgDot else "")
  }

  /**
   * `finalHTML` as written: for `"text"` the component only replaces
   * newlines and never calls `contentToHTML`, so markup in the text is
   * not escaped.
   */
  function FinalHtmlAsWritten(env: Env, content: string, contentType: string, streaming: bool): Result<string, string>
  {
    var html := if contentType == "text" then Ok(ReplaceAllChar(content, '\n', "<br>"))
                else ContentToHtml(env, content, contentType);
    if html.Err? then html else Ok(WithDot(html.value, streaming))
  }

  /** Text content `<b>` renders as a live `<b>` tag. */
  lemma TextMarkupNotEscaped(env: Env, bold: string)
    requires bold == "<b>"
    ensures FinalHtmlAsWritten(env, bold, "text", false) == Ok(bold)
  {
    ReplaceAllCharAbsent(bold, '\n', "<br>");
    assert bold + "" == bold;
  }

  /** What the text `<b>` should render as. */
  lemma EscapedBold(bold: string)
    requires bold == "<b>"
    ensures TextToHtml(bold) == "&lt;b&gt;"
  {
    assert bold == [bold[0]] + ([bold[1]] + ([bold[2]] + []));
    TextToHtmlIsTextEach(bold);
    var s1 := [bold[1]] + ([bold[2]] + []);
    var s2 := [bold[2]] + [];
    assert TextEach(bold) == TextChar(bold[0]) + TextEach(s1);
    assert TextEach(s1) == TextChar(bold[1]) + TextEach(s2);
    assert TextEach(s2) == TextChar(bold[2]) + TextEach([]);
    assert TextChar(bold[0]) == "&lt;";
    assert TextChar(bold[1]) == "b";
    assert TextChar(bold[2]) == "&gt;";
  }

  /**
   * The rendered HTML with every content type going through
   * `contentToHTML`: the converted content, then the dot while
   * streaming; an unknown type throws.
   */
  function FinalHtml(env: Env, content: string, contentType: string, streaming: bool): (r: Result<string, string>)
    ensures r.Err? <==> ContentToHtml(env, content, contentType).Err?
    ensures r.Err? ==> r.error == "Unknown content type: " + contentType
    ensures r.Ok? ==> r.value == WithDot(ContentToHtml(env, content, contentType).value, streaming)
  {
    var html := ContentToHtml(env, content, contentType);
    if html.Err? then html else Ok(WithDot(html.value, streaming))
  }

  /** With the correction, text content is shown as text: its markup is escaped and it can be recovered. */
  lemma FinalHtmlTextEscapes(env: Env, content: string)
    ensures var r := FinalHtml(env, content, "text", false);
            r.Ok? && MarkdownRenderer.UnescapeHtml(UnBreak(r.value)) == content
  {
    TextToHtmlRoundTrip(content);
    var t := TextToHtml(content);
    assert WithDot(t, false) == t + "" == t;
  }

  /** With the correction, the text `<b>` is shown as the characters `<b>`. */
  lemma FinalHtmlEscapesBold(env: Env, bold: string)
    requires bold == "<b>"
    ensures FinalHtml(env, bold, "text", false) == Ok("&lt;b&gt;")
  {
    EscapedBold(bold);
    var e := TextToHtml(bold);
    assert WithDot(e, false) == e + "" == e;
  }

  /** Where the text has neither markup nor newlines, the two agree. */
  lemma FinalHtmlAgreesOnPlainText(env: Env, content: string, streaming: bool)
    requires forall i :: 0 <= i < |content| ==> content[i] !in "&<>\"'\n"
    ensures FinalHtml(env, content, "text", streaming) == FinalHtmlAsWritten(env, content, "text", streaming)
  {
    PlainTextUnchanged(content);
  }

  lemma {:induction false} PlainTextUnchanged(s: string)
    requires forall i :: 0 <= i < |s| ==> s[i] !in "&<>\"'\n"
    ensures TextToHtml(s) == s && ReplaceAllChar(s, '\n', "<br>") == s
    decreases |s|
  {
    TextToHtmlIsTextEach(s);
    assert '\n' !in s;
    ReplaceAllCharAbsent(s, '\n', "<br>");
    TextEachPlain(s);
  }

  lemma {:induction false} TextEachPlain(s: string)
    requires forall i :: 0 <= i < |s| ==> s[i] !in "&<>\"'\n"
    ensures TextEach(s) == s
    decreases |s|
  {
    if s != [] {
      assert s[0] !in "&<>\"'\n";
      TextEachPlain(s[1..]);
      assert s == [s[0]] + s[1..];
    }
  }

  // ---------------------------------------------------------------
  // Highlight themes

  const ThemeLightDefault: string := "atom-one-light"
  const ThemeDarkDefault: string := "atom-one-dark"
  const HighlightCdnBase: string := "https://cdnjs.cloudflare.com/ajax/libs/highlight.js/11.11.1/styles"

  /** `getThemeUrl`: the two default themes are embedded (no URL); any other comes from the CDN. */
  function GetThemeUrl(themeName: string): (r: string)
    ensures themeName in {ThemeLightDefault, ThemeDarkDefault} <==> r == ""
    ensures r != "" ==> r == HighlightCdnBase + "/" + themeName + ".min.css"
  {
    if themeName == ThemeLightDefault || themeName == ThemeDarkDefault then ""
    else HighlightCdnBase + "/" + themeName + ".min.css"
  }

  /** The embedded theme used when the CDN stylesheet fails to load. */
  function FallbackTheme(themeName: string): (r: string)
    ensures r == ThemeDarkDefault <==> Contains(themeName, "dark")
    ensures r == ThemeLightDefault <==> !Contains(themeName, "dark")
  {
    if Contains(themeName, "dark") then ThemeDarkDefault else ThemeLightDefault
  }

  /** A fallback theme is always embedded, so its own load never goes to the network. */
  lemma FallbackIsEmbedded(themeName: string)
    ensures GetThemeUrl(FallbackTheme(themeName)) == ""
  {
  }

  // ---------------------------------------------------------------
  // Scroll refs and effects

  /** The walk starts at the container's parent and stops at the chat element. */
  const ChatTag: string := "shiny-chat"

  /** The throttle wait of the scroll to the bottom, in milliseconds. */
  const ScrollThrottleDelay: nat := 50

  datatype Callback = ContentChangeCalled | StreamEndCalled

  /**
   * The refs the effects update: the scroll controller, the throttle's
   * pending call (the streaming flag the scheduled scroll will use) and
   * the callbacks called so far.
   */
  datatype Refs = Refs(scroll: ScrollState, pending: Option<bool>, callbacks: seq<Callback>)

  const InitialRefs: Refs := Refs(InitialScrollState, None, [])

  /**
   * The content effect: mark content as being added, find the scrollable
   * element, clear the mark, schedule the throttled scroll and call
   * `onContentChange`.  `chain` starts at the container's parent.
   */
  function ContentEffect(r: Refs, autoScroll: bool, streaming: bool, hasOnContentChange: bool,
                         chain: seq<Elem>, layout: Layout): Refs
  {
    var found := ScrollableParent(autoScroll, chain, ChatTag, layout);
    Refs(SwapScrollable(r.scroll.(isContentBeingAdded := true), found).(isContentBeingAdded := false),
         Some(streaming),
         r.callbacks + (if hasOnContentChange then [ContentChangeCalled] else []))
  }

  /** The throttle timer fires: the scheduled scroll runs and the slot is cleared. */
  function TimerFires(r: Refs, layout: Layout): Refs
  {
    if r.pending.None? then r
    else r.(scroll := MaybeScrollStep(r.scroll, layout, r.pending.value), pending := None)
  }

  /** The streaming effect: `onStreamEnd` runs whenever the effect runs with streaming off. */
  function StreamingEffect(r: Refs, streaming: bool, hasOnStreamEnd: bool): Refs
  {
    if !streaming && hasOnStreamEnd then r.(callbacks := r.callbacks + [StreamEndCalled]) else r
  }

  /** The cleanup effect: the scroll listener is removed; the ref and the user-scrolled flag are kept. */
  function CleanupEffect(r: Refs): Refs
  {
    r.(scroll := r.scroll.(listeners := r.scroll.listeners + DetachFrom(r.scroll.scrollable)))
  }

  class MarkdownStreamView {
    var content: string
    var contentType: string
    var streaming: bool
    var autoScroll: bool
    var hasOnContentChange: bool
    var hasOnStreamEnd: bool
    var refs: Refs

    /** The props' defaults: markdown, not streaming, no auto-scroll. */
    constructor(content: string)
      ensures this.content == content && contentType == "markdown" && !streaming && !autoScroll
      ensures !hasOnContentChange && !hasOnStreamEnd && refs == InitialRefs
    {
      this.content := content;
      contentType := "markdown";
      streaming := false;
      autoScroll := false;
      hasOnContentChange := false;
      hasOnStreamEnd := false;
      refs := InitialRefs;
    }

    method RunContentEffect(chain: seq<Elem>, layout: Layout)
      modifies this
      ensures refs == ContentEffect(old(refs), autoScroll, streaming, hasOnContentChange, chain, layout)
      ensures content == old(content) && streaming == old(streaming) && autoScroll == old(autoScroll)
    {
      var s := refs.scroll.(isContentBeingAdded := true);
      var found := FindScrollableParent(autoScroll, chain, ChatTag, layout);
      if found != s.scrollable {
        s := s.(scrollable := found, listeners := s.listeners + DetachFrom(s.scrollable) + AttachTo(found));
      }
      s := s.(isContentBeingAdded := false);
      var cbs := refs.callbacks;
      if hasOnContentChange {
        cbs := cbs + [ContentChangeCalled];
      }
      refs := Refs(s, Some(streaming), cbs);
    }

    method FireTimer(layout: Layout)
      modifies this
      ensures refs == TimerFires(old(refs), layout)
    {
      if refs.pending.Some? {
        var st := refs.pending.value;
        var s := refs.scroll;
        if s.scrollable.Some? && !s.isUserScrolled {
          var id := s.scrollable.value;
          s := s.(scrolls := s.scrolls + [ScrollTo(id, BottomTop(layout(id)), if st then Instant else Smooth)]);
        }
        refs := refs.(scroll := s, pending := None);
      }
    }

    method RunStreamingEffect()
      modifies this
      ensures refs == StreamingEffect(old(refs), streaming, hasOnStreamEnd)
    {
      if !streaming && hasOnStreamEnd {
        refs := refs.(callbacks := refs.callbacks + [StreamEndCalled]);
      }
    }

    method OnScroll(layout: Layout)
      modifies this
      ensures refs == old(refs).(scroll := OnScrollStep(old(refs).scroll, layout))
    {
      if !refs.scroll.isContentBeingAdded {
        refs := refs.(scroll := refs.scroll.(isUserScrolled := !IsNearBottom(refs.scroll.scrollable, layout)));
      }
    }

    method RunCleanup()
      modifies this
      ensures refs == CleanupEffect(old(refs))
    {
      refs := refs.(scroll := refs.scroll.(listeners := refs.scroll.listeners + DetachFrom(refs.scroll.scrollable)));
    }
  }

  /** Several content effects in a row, with the streaming flag of each. */
  function ContentEffects(r: Refs, autoScroll: bool, flags: seq<bool>, hasOnContentChange: bool,
                          chain: seq<Elem>, layout: Layout): Refs
    decreases |flags|
  {
    if flags == [] then r
    else ContentEffects(ContentEffect(r, autoScroll, flags[0], hasOnContentChange, chain, layout),
                        autoScroll, flags[1..], hasOnContentChange, chain, layout)
  }

  /**
   * After a burst of content effects the scrollable element is the one
   * the walk finds, the user-scrolled flag and the scroll log are as
   * before, and the pending scroll carries the last streaming flag.
   */
  lemma {:induction false} ContentEffectsState(r: Refs, autoScroll: bool, flags: seq<bool>, hasOnContentChange: bool,
                                               chain: seq<Elem>, layout: Layout)
    requires flags != []
    ensures var r' := ContentEffects(r, autoScroll, flags, hasOnContentChange, chain, layout);
            r'.scroll.scrollable == ScrollableParent(autoScroll, chain, ChatTag, layout)
            && r'.scroll.isUserScrolled == r.scroll.isUserScrolled
            && r'.scroll.scrolls == r.scroll.scrolls
            && !r'.scroll.isContentBeingAdded
            && r'.pending == Some(flags[|flags| - 1])
    decreases |flags|
  {
    var r1 := ContentEffect(r, autoScroll, flags[0], hasOnContentChange, chain, layout);
    if |flags| > 1 {
      ContentEffectsState(r1, autoScroll, flags[1..], hasOnContentChange, chain, layout);
      assert flags[1..][|flags[1..]| - 1] == flags[|flags| - 1];
    } else {
      assert flags[1..] == [];
    }
  }

  /**
   * The throttled scroll: a burst of content changes followed by the
   * timer scrolls at most once, to the bottom of the element found, with
   * the behaviour of the last change; and only when the user has not
   * scrolled away.
   */
  lemma BurstScrollsOnce(r: Refs, autoScroll: bool, flags: seq<bool>, hasOnContentChange: bool,
                         chain: seq<Elem>, layout: Layout)
    requires flags != []
    ensures var r' := TimerFires(ContentEffects(r, autoScroll, flags, hasOnContentChange, chain, layout), layout);
            var found := ScrollableParent(autoScroll, chain, ChatTag, layout);
            r'.pending.None?
            && r'.scroll.scrolls == r.scroll.scrolls +
                 (if found.Some? && !r.scroll.isUserScrolled
                  then [ScrollTo(found.value, BottomTop(layout(found.value)), if flags[|flags| - 1] then Instant else Smooth)]
                  else [])
  {
    ContentEffectsState(r, autoScroll, flags, hasOnContentChange, chain, layout);
  }

  /** `onContentChange` is called once per content effect when given, and never otherwise. */
  lemma {:induction false} ContentEffectsCallbacks(r: Refs, autoScroll: bool, flags: seq<bool>, hasOnContentChange: bool,
                                                   chain: seq<Elem>, layout: Layout)
    ensures var r' := ContentEffects(r, autoScroll, flags, hasOnContentChange, chain, layout);
            |r'.callbacks| == |r.callbacks| + (if hasOnContentChange then |flags| else 0)
            && r'.callbacks[..|r.callbacks|] == r.callbacks
            && forall i :: |r.callbacks| <= i < |r'.callbacks| ==> r'.callbacks[i] == ContentChangeCalled
    decreases |flags|
  {
    if flags != [] {
      var r1 := ContentEffect(r, autoScroll, flags[0], hasOnContentChange, chain, layout);
      ContentEffectsCallbacks(r1, autoScroll, flags[1..], hasOnContentChange, chain, layout);
    }
  }

  /**
   * The cleanup effect only detaches the listener: unlike the Lit
   * element's cleanup it keeps the element and the user-scrolled flag,
   * so a remount scrolls only after the walk runs again.
   */
  lemma CleanupKeepsRefs(r: Refs)
    ensures CleanupEffect(r).scroll.scrollable == r.scroll.scrollable
    ensures CleanupEffect(r).scroll.isUserScrolled == r.scroll.isUserScrolled
    ensures CleanupEffect(r).scroll.listeners == r.scroll.listeners + DetachFrom(r.scroll.scrollable)
  {
  }
}
